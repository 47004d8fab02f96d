/** Counters and histograms of the in-process metrics registry. */
module Registry {
  import opened Common
  import opened Labels

  /** A JavaScript number, up to rounding. */
  datatype Number = Finite(value: real) | PlusInfinity | MinusInfinity | NotANumber

  /** The comparison `by > 0`, which no NaN passes. */
  predicate Positive(n: Number) { n.PlusInfinity? || (n.Finite? && n.value > 0.0) }

  /** A counter's value and a positive amount. */
  function Plus(value: Number, amount: Number): Number {
    if value.Finite? && amount.Finite? then Finite(value.value + amount.value) else PlusInfinity
  }

  const ZERO := Finite(0.0)

  /** One histogram series. A bucket never counted is absent and reads as zero. */
  datatype Series = Series(counts: map<nat, nat>, count: nat, sum: real)

  const EMPTY_SERIES := Series(map[], 0, 0.0)
  const DEFAULT_BUCKETS: seq<real> := [0.005, 0.01, 0.025, 0.05, 0.1, 0.25, 0.5, 1.0, 2.5, 5.0, 10.0]

  function CountAt(counts: map<nat, nat>, i: nat): nat { if i in counts then counts[i] else 0 }

  /** The first bucket whose bound is not exceeded; the number of buckets when all are. */
  function FirstBucket(buckets: seq<real>, v: real): (i: nat)
    ensures i <= |buckets|
    ensures forall j :: 0 <= j < i ==> v > buckets[j]
    ensures i < |buckets| ==> v <= buckets[i]
  {
    if buckets == [] || v <= buckets[0] then 0 else 1 + FirstBucket(buckets[1..], v)
  }

  function Add(s: Series, buckets: seq<real>, v: real): Series {
    var i := FirstBucket(buckets, v);
    Series(if i < |buckets| then s.counts[i := CountAt(s.counts, i) + 1] else s.counts, s.count + 1, s.sum + v)
  }

  /** The series after the given observations, oldest first. */
  function Observed(buckets: seq<real>, obs: seq<real>): Series {
    if obs == [] then EMPTY_SERIES else Add(Observed(buckets, obs[..|obs| - 1]), buckets, obs[|obs| - 1])
  }

  /** What the rendering loop has accumulated after `n` buckets. */
  function Cumulative(counts: map<nat, nat>, n: nat): nat {
    if n == 0 then 0 else Cumulative(counts, n - 1) + CountAt(counts, n - 1)
  }

  /******* What a rendered bucket means *******/

  function AtMost(obs: seq<real>, bound: real): nat {
    if obs == [] then 0 else AtMost(obs[..|obs| - 1], bound) + if obs[|obs| - 1] <= bound then 1 else 0
  }

  function Total(obs: seq<real>): real {
    if obs == [] then 0.0 else Total(obs[..|obs| - 1]) + obs[|obs| - 1]
  }

  /** The highest bound among buckets 0 to i. */
  function Highest(buckets: seq<real>, i: nat): (h: real)
    requires i < |buckets|
    ensures h in buckets[..i + 1]
    ensures forall j :: 0 <= j <= i ==> buckets[j] <= h
  {
    if i == 0 then buckets[0]
    else
      var h := Highest(buckets, i - 1);
      assert buckets[..i + 1] == buckets[..i] + [buckets[i]];
      if h <= buckets[i] then buckets[i] else h
  }

  predicate Accepted(obs: seq<real>) { forall v <- obs :: v >= 0.0 }

  lemma {:induction false} CumulativePut(counts: map<nat, nat>, k: nat, n: nat)
    ensures Cumulative(counts[k := CountAt(counts, k) + 1], n) == Cumulative(counts, n) + if k < n then 1 else 0
  {
    if n > 0 { CumulativePut(counts, k, n - 1); }
  }

  lemma FirstBucketReached(buckets: seq<real>, v: real, i: nat)
    requires i < |buckets|
    ensures FirstBucket(buckets, v) <= i <==> v <= Highest(buckets, i)
  {
    var h := Highest(buckets, i);
    var j :| 0 <= j <= i && buckets[j] == h;
  }

  lemma CumulativeAdd(s: Series, buckets: seq<real>, v: real, i: nat)
    requires i < |buckets|
    ensures Cumulative(Add(s, buckets, v).counts, i + 1) == Cumulative(s.counts, i + 1) + if v <= Highest(buckets, i) then 1 else 0
  {
    FirstBucketReached(buckets, v, i);
    CumulativePut(s.counts, FirstBucket(buckets, v), i + 1);
  }

  /** For any buckets: a rendered value counts the observations up to the highest bound so far. */
  lemma {:induction false} CumulativeCounts(buckets: seq<real>, obs: seq<real>, i: nat)
    requires i < |buckets|
    ensures Cumulative(Observed(buckets, obs).counts, i + 1) == AtMost(obs, Highest(buckets, i))
    decreases |obs|
  {
    if obs == [] {
      NoneCounted(i + 1);
    } else {
      var earlier, v := obs[..|obs| - 1], obs[|obs| - 1];
      CumulativeCounts(buckets, earlier, i);
      CumulativeAdd(Observed(buckets, earlier), buckets, v, i);
    }
  }

  lemma {:induction false} NoneCounted(n: nat)
    ensures Cumulative(map[], n) == 0
  {
    if n > 0 { NoneCounted(n - 1); }
  }

  /** The values of the bucket lines. */
  function Rendered(entry: Series, buckets: seq<real>): (values: seq<nat>)
    ensures |values| == |buckets|
  {
    seq(|buckets|, i requires 0 <= i < |buckets| => Cumulative(entry.counts, i + 1))
  }

  predicate Exact(buckets: seq<real>, i: nat, obs: seq<real>)
    requires i < |buckets|
  {
    Rendered(Observed(buckets, obs), buckets)[i] == AtMost(obs, buckets[i])
  }

  lemma {:induction false} NoneBelow(obs: seq<real>, bound: real)
    requires Accepted(obs) && bound < 0.0
    ensures AtMost(obs, bound) == 0
    decreases |obs|
  {
    if obs != [] {
      var earlier := obs[..|obs| - 1];
      assert obs == earlier + [obs[|obs| - 1]];
      assert obs[|obs| - 1] in obs && forall v <- earlier :: v in obs;
      NoneBelow(obs[..|obs| - 1], bound);
    }
  }

  lemma AtMostOne(v: real, bound: real)
    ensures AtMost([v], bound) == if v <= bound then 1 else 0
  {
    assert [v][..0] == [];
  }

  /** A bucket renders the count at its own bound, whatever is observed, exactly when no earlier
      bound that an observation can reach is higher. */
  lemma BucketIsExactIff(buckets: seq<real>, i: nat)
    requires i < |buckets|
    ensures (forall obs :: Accepted(obs) ==> Exact(buckets, i, obs))
       <==> (forall j :: 0 <= j < i ==> buckets[j] <= buckets[i] || buckets[j] < 0.0)
  {
    var h := Highest(buckets, i);
    var k :| 0 <= k <= i && buckets[k] == h;
    if forall j :: 0 <= j < i ==> buckets[j] <= buckets[i] || buckets[j] < 0.0 {
      forall obs | Accepted(obs) ensures Exact(buckets, i, obs) {
        CumulativeCounts(buckets, obs, i);
        if h != buckets[i] {
          NoneBelow(obs, h);
          NoneBelow(obs, buckets[i]);
        }
      }
    } else {
      var j :| 0 <= j < i && buckets[j] > buckets[i] && buckets[j] >= 0.0;
      var obs := [h];
      CumulativeCounts(buckets, obs, i);
      AtMostOne(h, h);
      AtMostOne(h, buckets[i]);
      assert Accepted(obs) && !Exact(buckets, i, obs);
    }
  }

  predicate Sorted(buckets: seq<real>) { forall i, j :: 0 <= i < j < |buckets| ==> buckets[i] <= buckets[j] }

  lemma DefaultBucketsSorted()
    ensures Sorted(DEFAULT_BUCKETS)
  {
  }

  lemma {:induction false} AtMostAll(obs: seq<real>, bound: real)
    ensures AtMost(obs, bound) <= |obs|
    decreases |obs|
  {
    if obs != [] { AtMostAll(obs[..|obs| - 1], bound); }
  }

  lemma {:induction false} CountAndSum(buckets: seq<real>, obs: seq<real>)
    ensures Observed(buckets, obs).count == |obs| && Observed(buckets, obs).sum == Total(obs)
    decreases |obs|
  {
    if obs != [] { CountAndSum(buckets, obs[..|obs| - 1]); }
  }

  lemma {:induction false} CumulativeMonotone(counts: map<nat, nat>, m: nat, n: nat)
    requires m <= n
    ensures Cumulative(counts, m) <= Cumulative(counts, n)
    decreases n
  {
    if m < n { CumulativeMonotone(counts, m, n - 1); }
  }

  lemma RenderedMonotone(entry: Series, buckets: seq<real>)
    ensures forall i, j :: 0 <= i < j < |buckets| ==> Rendered(entry, buckets)[i] <= Rendered(entry, buckets)[j]
  {
    forall i, j | 0 <= i < j < |buckets| ensures Rendered(entry, buckets)[i] <= Rendered(entry, buckets)[j] {
      CumulativeMonotone(entry.counts, i + 1, j + 1);
    }
  }

  lemma SortedBucketIsExact(buckets: seq<real>, i: nat, obs: seq<real>)
    requires Sorted(buckets) && Accepted(obs) && i < |buckets|
    ensures Exact(buckets, i, obs) && AtMost(obs, buckets[i]) <= |obs|
  {
    BucketIsExactIff(buckets, i);
    AtMostAll(obs, buckets[i]);
  }

  /** Sorted buckets: every value is exact, none falls, none passes the count. */
  lemma HistogramIsCumulative(buckets: seq<real>, obs: seq<real>)
    requires Sorted(buckets) && Accepted(obs)
    ensures
      var entry := Observed(buckets, obs);
      var values := Rendered(entry, buckets);
      && (forall i :: 0 <= i < |buckets| ==> values[i] == AtMost(obs, buckets[i]) <= entry.count)
      && (forall i, j :: 0 <= i < j < |buckets| ==> values[i] <= values[j])
      && entry.count == |obs| && entry.sum == Total(obs)
  {
    var entry := Observed(buckets, obs);
    var values := Rendered(entry, buckets);
    CountAndSum(buckets, obs);
    forall i | 0 <= i < |buckets| ensures values[i] == AtMost(obs, buckets[i]) <= entry.count {
      SortedBucketIsExact(buckets, i, obs);
    }
    RenderedMonotone(entry, buckets);
  }

  /******* Recording, over any run *******/

  datatype Definition =
    | Counter(name: string, help: string, labelKeys: seq<string>)
    | Histogram(name: string, help: string, labelKeys: seq<string>, buckets: seq<real>)

  type Catalog = map<string, Definition>

  predicate ValidDefinition(d: Definition) {
    ValidName(d.name) && forall k <- d.labelKeys :: ValidName(k)
  }

  predicate ValidCatalog(defs: Catalog) { forall n <- defs :: ValidDefinition(defs[n]) && defs[n].name == n }

  type Recorded<V> = map<string, map<string, V>>

  function At<V>(m: Recorded<V>, name: string, key: string): Option<V> {
    if name in m && key in m[name] then Some(m[name][key]) else None
  }

  function Put<V>(m: Recorded<V>, name: string, key: string, v: V): Recorded<V> {
    m[name := (if name in m then m[name] else map[])[key := v]]
  }

  datatype Values = Values(counters: Recorded<Number>, histograms: Recorded<Series>)

  const NOTHING := Values(map[], map[])

  datatype Recording =
    | Increment(name: string, amount: Number, labels: Labels)
    | Observe(name: string, value: Number, labels: Labels)
    | Reset

  predicate Counts(defs: Catalog, r: Recording) {
    r.Increment? && r.name in defs && defs[r.name].Counter? && Positive(r.amount)
  }

  predicate Observes(defs: Catalog, r: Recording) {
    r.Observe? && r.name in defs && defs[r.name].Histogram? && r.value.Finite? && r.value.value >= 0.0
  }

  function Record(defs: Catalog, s: Values, r: Recording): Values {
    if r.Reset? then NOTHING
    else if Counts(defs, r) then
      var key := SeriesKey(defs[r.name].labelKeys, r.labels);
      s.(counters := Put(s.counters, r.name, key, Plus(At(s.counters, r.name, key).GetOr(ZERO), r.amount)))
    else if Observes(defs, r) then
      var key := SeriesKey(defs[r.name].labelKeys, r.labels);
      var before := At(s.histograms, r.name, key).GetOr(EMPTY_SERIES);
      s.(histograms := Put(s.histograms, r.name, key, Add(before, defs[r.name].buckets, r.value.value)))
    else s
  }

  function RecordAll(defs: Catalog, log: seq<Recording>): Values {
    if log == [] then NOTHING else Record(defs, RecordAll(defs, log[..|log| - 1]), log[|log| - 1])
  }

  /** The accepted observations, since the last reset, that carry these labels on the declared keys. */
  function ObservationsOf(defs: Catalog, log: seq<Recording>, name: string, labels: Labels): (obs: seq<real>)
    requires name in defs
    ensures Accepted(obs)
  {
    if log == [] || log[|log| - 1].Reset? then []
    else
      var r := log[|log| - 1];
      ObservationsOf(defs, log[..|log| - 1], name, labels)
      + if Observes(defs, r) && r.name == name && Agree(defs[name].labelKeys, r.labels, labels) then [r.value.value] else []
  }

  /** The accepted increments, since the last reset, that carry these labels on the declared keys. */
  function IncrementsOf(defs: Catalog, log: seq<Recording>, name: string, labels: Labels): seq<Number>
    requires name in defs
  {
    if log == [] || log[|log| - 1].Reset? then []
    else
      var r := log[|log| - 1];
      IncrementsOf(defs, log[..|log| - 1], name, labels)
      + if Counts(defs, r) && r.name == name && Agree(defs[name].labelKeys, r.labels, labels) then [r.amount] else []
  }

  function FiniteTotal(amounts: seq<Number>): real {
    if amounts == [] then 0.0
    else
      var last := amounts[|amounts| - 1];
      FiniteTotal(amounts[..|amounts| - 1]) + if last.Finite? then last.value else 0.0
  }

  /** What positive amounts add up to. */
  function TotalOf(amounts: seq<Number>): Number {
    if PlusInfinity in amounts then PlusInfinity else Finite(FiniteTotal(amounts))
  }

  lemma TotalOfSnoc(amounts: seq<Number>, amount: Number)
    requires Positive(amount)
    ensures TotalOf(amounts + [amount]) == Plus(TotalOf(amounts), amount)
  {
    assert (amounts + [amount])[..|amounts|] == amounts;
  }

  lemma PutAt<V>(m: Recorded<V>, name: string, key: string, v: V, otherName: string, otherKey: string)
    ensures At(Put(m, name, key, v), otherName, otherKey) ==
            if name == otherName && key == otherKey then Some(v) else At(m, otherName, otherKey)
  {
  }

  function SeriesOf(defs: Catalog, s: Values, name: string, labels: Labels): Series
    requires name in defs
  {
    At(s.histograms, name, SeriesKey(defs[name].labelKeys, labels)).GetOr(EMPTY_SERIES)
  }

  lemma ObservationReachesItsSeries(defs: Catalog, s: Values, r: Recording, name: string, labels: Labels)
    requires ValidCatalog(defs) && name in defs && Observes(defs, r)
    ensures SeriesOf(defs, Record(defs, s, r), name, labels) ==
            if r.name == name && Agree(defs[name].labelKeys, r.labels, labels)
            then Add(SeriesOf(defs, s, name, labels), defs[name].buckets, r.value.value)
            else SeriesOf(defs, s, name, labels)
  {
    var key := SeriesKey(defs[r.name].labelKeys, r.labels);
    var added := Add(At(s.histograms, r.name, key).GetOr(EMPTY_SERIES), defs[r.name].buckets, r.value.value);
    PutAt(s.histograms, r.name, key, added, name, SeriesKey(defs[name].labelKeys, labels));
    SeriesKeyInjective(defs[name].labelKeys, r.labels, labels);
  }

  lemma ObservedSnoc(buckets: seq<real>, obs: seq<real>, v: real)
    ensures Observed(buckets, obs + [v]) == Add(Observed(buckets, obs), buckets, v)
  {
    assert (obs + [v])[..|obs|] == obs;
  }

  /** A series holds its own observations and no others. */
  lemma {:induction false} SeriesHoldsItsObservations(defs: Catalog, log: seq<Recording>, name: string, labels: Labels)
    requires ValidCatalog(defs) && name in defs && defs[name].Histogram?
    ensures SeriesOf(defs, RecordAll(defs, log), name, labels)
         == Observed(defs[name].buckets, ObservationsOf(defs, log, name, labels))
    decreases |log|
  {
    if log != [] && !log[|log| - 1].Reset? {
      var before, r := log[..|log| - 1], log[|log| - 1];
      var obs := ObservationsOf(defs, before, name, labels);
      SeriesHoldsItsObservations(defs, before, name, labels);
      assert obs + [] == obs;
      if Observes(defs, r) {
        ObservationReachesItsSeries(defs, RecordAll(defs, before), r, name, labels);
        ObservedSnoc(defs[name].buckets, obs, r.value.value);
      }
    }
  }

  function CounterOf(defs: Catalog, s: Values, name: string, labels: Labels): Number
    requires name in defs
  {
    At(s.counters, name, SeriesKey(defs[name].labelKeys, labels)).GetOr(ZERO)
  }

  lemma IncrementReachesItsCounter(defs: Catalog, s: Values, r: Recording, name: string, labels: Labels)
    requires ValidCatalog(defs) && name in defs && Counts(defs, r)
    ensures CounterOf(defs, Record(defs, s, r), name, labels) ==
            if r.name == name && Agree(defs[name].labelKeys, r.labels, labels) then Plus(CounterOf(defs, s, name, labels), r.amount)
            else CounterOf(defs, s, name, labels)
  {
    var key := SeriesKey(defs[r.name].labelKeys, r.labels);
    PutAt(s.counters, r.name, key, Plus(At(s.counters, r.name, key).GetOr(ZERO), r.amount), name, SeriesKey(defs[name].labelKeys, labels));
    SeriesKeyInjective(defs[name].labelKeys, r.labels, labels);
  }

  /** A counter holds its own increments and no others. */
  lemma {:induction false} CounterHoldsItsIncrements(defs: Catalog, log: seq<Recording>, name: string, labels: Labels)
    requires ValidCatalog(defs) && name in defs && defs[name].Counter?
    ensures CounterOf(defs, RecordAll(defs, log), name, labels) == TotalOf(IncrementsOf(defs, log, name, labels))
    decreases |log|
  {
    if log != [] && !log[|log| - 1].Reset? {
      var before, r := log[..|log| - 1], log[|log| - 1];
      var amounts := IncrementsOf(defs, before, name, labels);
      CounterHoldsItsIncrements(defs, before, name, labels);
      assert amounts + [] == amounts;
      if Counts(defs, r) {
        IncrementReachesItsCounter(defs, RecordAll(defs, before), r, name, labels);
        TotalOfSnoc(amounts, r.amount);
      }
    }
  }

  /** Whatever was recorded, each rendered value of a sorted histogram counts the accepted observations
      of exactly this label set at or below its bound. */
  lemma RenderedBucketsAreTrue(defs: Catalog, log: seq<Recording>, name: string, labels: Labels)
    requires ValidCatalog(defs) && name in defs && defs[name].Histogram? && Sorted(defs[name].buckets)
    ensures
      var buckets := defs[name].buckets;
      var entry := SeriesOf(defs, RecordAll(defs, log), name, labels);
      var values := Rendered(entry, buckets);
      var obs := ObservationsOf(defs, log, name, labels);
      && (forall i :: 0 <= i < |buckets| ==> values[i] == AtMost(obs, buckets[i]) <= entry.count)
      && (forall i, j :: 0 <= i < j < |buckets| ==> values[i] <= values[j])
      && entry.count == |obs| && entry.sum == Total(obs)
  {
    SeriesHoldsItsObservations(defs, log, name, labels);
    HistogramIsCumulative(defs[name].buckets, ObservationsOf(defs, log, name, labels));
  }

  /** Every stored key is that of some labels that were observed. */
  ghost predicate Genuine(defs: Catalog, name: string, key: string, entry: Series) {
    && name in defs && defs[name].Histogram? && entry.count > 0
    && exists labels :: SeriesKey(defs[name].labelKeys, labels) == key
  }

  lemma {:induction false} StoredSeriesAreGenuine(defs: Catalog, log: seq<Recording>, name: string, key: string)
    requires At(RecordAll(defs, log).histograms, name, key).Some?
    ensures Genuine(defs, name, key, At(RecordAll(defs, log).histograms, name, key).value)
    decreases |log|
  {
    if log != [] {
      var before, r := log[..|log| - 1], log[|log| - 1];
      var s := RecordAll(defs, before);
      if Observes(defs, r) && r.name == name && key == SeriesKey(defs[name].labelKeys, r.labels) {
        assert At(RecordAll(defs, log).histograms, name, key).value.count > 0;
      } else if !r.Reset? {
        assert At(s.histograms, name, key) == At(RecordAll(defs, log).histograms, name, key);
        StoredSeriesAreGenuine(defs, before, name, key);
      }
    }
  }

  /** A series is stored for exactly the label sets that were observed. */
  lemma StoredIffObserved(defs: Catalog, log: seq<Recording>, name: string, labels: Labels)
    requires ValidCatalog(defs) && name in defs && defs[name].Histogram?
    ensures At(RecordAll(defs, log).histograms, name, SeriesKey(defs[name].labelKeys, labels)).Some?
            <==> ObservationsOf(defs, log, name, labels) != []
  {
    var key := SeriesKey(defs[name].labelKeys, labels);
    SeriesHoldsItsObservations(defs, log, name, labels);
    CountAndSum(defs[name].buckets, ObservationsOf(defs, log, name, labels));
    if At(RecordAll(defs, log).histograms, name, key).Some? { StoredSeriesAreGenuine(defs, log, name, key); }
  }

  /******* Rendering and recording as the code does it *******/

  /** A comment line, or a sample: its text up to the value, and the value before formatting. */
  datatype Line = Comment(text: string) | Sample(text: string, value: Number)

  function HeaderLines(d: Definition): seq<Line> {
    [Comment("# HELP " + d.name + " " + d.help),
     Comment("# TYPE " + d.name + " " + if d.Counter? then "counter" else "histogram")]
  }

  /** The lines of one histogram series; bound texts come from the number formatter. */
  function SeriesLines(name: string, buckets: seq<real>, key: string, entry: Series, text: real -> string): (lines: seq<Line>)
    ensures |lines| == |buckets| + 3
  {
    seq(|buckets|, i requires 0 <= i < |buckets| => BucketLine(name, buckets, key, entry, text, i))
    + [Sample(name + "_bucket" + BucketKey(key, "+Inf"), Finite(entry.count as real)),
       Sample(name + "_sum" + key, Finite(entry.sum)),
       Sample(name + "_count" + key, Finite(entry.count as real))]
  }

  function BucketLine(name: string, buckets: seq<real>, key: string, entry: Series, text: real -> string, i: nat): Line
    requires i < |buckets|
  {
    Sample(name + "_bucket" + BucketKey(key, EscapeLabelValue(text(buckets[i]))), Finite(Rendered(entry, buckets)[i] as real))
  }

  /** What one stored series adds. */
  function LinesOf(d: Definition, s: Values, key: string, text: real -> string): seq<Line> {
    match d
    case Counter(name, _, _) =>
      if At(s.counters, name, key).Some? then [Sample(name + key, At(s.counters, name, key).value)] else []
    case Histogram(name, _, _, buckets) =>
      if At(s.histograms, name, key).Some? then SeriesLines(name, buckets, key, At(s.histograms, name, key).value, text) else []
  }

  function Concat<T>(blocks: seq<seq<T>>): seq<T> {
    if blocks == [] then [] else Concat(blocks[..|blocks| - 1]) + blocks[|blocks| - 1]
  }

  lemma {:induction false} ConcatInOrder<T>(first: seq<seq<T>>, rest: seq<seq<T>>)
    ensures Concat(first + rest) == Concat(first) + Concat(rest)
    decreases |rest|
  {
    if rest == [] {
      assert first + rest == first;
    } else {
      var init := rest[..|rest| - 1];
      assert (first + rest)[..|first + rest| - 1] == first + init;
      ConcatInOrder(first, init);
    }
  }

  function Blocks(d: Definition, s: Values, keys: seq<string>, text: real -> string): seq<seq<Line>> {
    seq(|keys|, i requires 0 <= i < |keys| => LinesOf(d, s, keys[i], text))
  }

  /** The lines after the header, for the series in the given order. */
  function BodyLines(d: Definition, s: Values, keys: seq<string>, text: real -> string): seq<Line> { Concat(Blocks(d, s, keys, text)) }

  lemma BodyOfOne(d: Definition, s: Values, key: string, text: real -> string)
    ensures BodyLines(d, s, [key], text) == LinesOf(d, s, key, text)
  {
    var blocks := Blocks(d, s, [key], text);
    assert blocks[..0] == [] && Concat(blocks[..0]) == [];
  }

  /** The lines of the series stand one after the other, in the order of the series. */
  lemma BodyInOrder(d: Definition, s: Values, first: seq<string>, rest: seq<string>, text: real -> string)
    ensures BodyLines(d, s, first + rest, text) == BodyLines(d, s, first, text) + BodyLines(d, s, rest, text)
  {
    assert Blocks(d, s, first + rest, text) == Blocks(d, s, first, text) + Blocks(d, s, rest, text);
    ConcatInOrder(Blocks(d, s, first, text), Blocks(d, s, rest, text));
  }

  function KeysOf(d: Definition, s: Values): set<string> {
    match d
    case Counter(name, _, _) => if name in s.counters then s.counters[name].Keys else {}
    case Histogram(name, _, _, _) => if name in s.histograms then s.histograms[name].Keys else {}
  }

  /** Each key once. */
  predicate Lists(keys: seq<string>, all: set<string>) {
    && (forall i, j :: 0 <= i < j < |keys| ==> keys[i] != keys[j])
    && (set k <- keys) == all
  }

  /** Whatever was recorded: the bucket lines of any rendered series of a sorted histogram belong to some observed
      labels, parse back to them and their bound, and carry the number of those labels' own observations at or
      below it; the last bucket carries them all. */
  lemma RenderedLinesAreTrue(defs: Catalog, log: seq<Recording>, name: string, key: string, text: real -> string, i: nat) returns (labels: Labels)
    requires ValidCatalog(defs) && name in defs && defs[name].Histogram? && Sorted(defs[name].buckets)
    requires At(RecordAll(defs, log).histograms, name, key).Some? && i < |defs[name].buckets|
    ensures
      var d := defs[name];
      var obs := ObservationsOf(defs, log, name, labels);
      var lines := SeriesLines(name, d.buckets, key, At(RecordAll(defs, log).histograms, name, key).value, text);
      var bound := text(d.buckets[i]);
      && obs != [] && key == SeriesKey(d.labelKeys, labels)
      && lines[i] == Sample(name + "_bucket" + BucketKey(key, EscapeLabelValue(bound)), Finite(AtMost(obs, d.buckets[i]) as real))
      && ReadKey(BucketKey(key, EscapeLabelValue(bound))) == Some(Given(d.labelKeys, labels) + [("le", bound)])
      && lines[|d.buckets|..] == [Sample(name + "_bucket" + BucketKey(key, "+Inf"), Finite(|obs| as real)),
                                  Sample(name + "_sum" + key, Finite(Total(obs))),
                                  Sample(name + "_count" + key, Finite(|obs| as real))]
      && ReadKey(BucketKey(key, "+Inf")) == Some(Given(d.labelKeys, labels) + [("le", "+Inf")])
  {
    var d := defs[name];
    StoredSeriesAreGenuine(defs, log, name, key);
    labels :| SeriesKey(d.labelKeys, labels) == key;
    StoredIffObserved(defs, log, name, labels);
    RenderedBucketsAreTrue(defs, log, name, labels);
    BucketKeyReadsBack(d.labelKeys, labels, text(d.buckets[i]));
    BucketKeyReadsBack(d.labelKeys, labels, "+Inf");
    InfinityIsPlain();
  }

  /** Every stored key is that of some labels that were counted. */
  lemma {:induction false} StoredCountersAreGenuine(defs: Catalog, log: seq<Recording>, name: string, key: string)
    requires At(RecordAll(defs, log).counters, name, key).Some?
    ensures name in defs && defs[name].Counter? && Positive(At(RecordAll(defs, log).counters, name, key).value)
    ensures exists labels :: SeriesKey(defs[name].labelKeys, labels) == key
    decreases |log|
  {
    if log != [] {
      var before, r := log[..|log| - 1], log[|log| - 1];
      var s := RecordAll(defs, before);
      if Counts(defs, r) {
        var counted := SeriesKey(defs[r.name].labelKeys, r.labels);
        if At(s.counters, r.name, counted).Some? { StoredCountersAreGenuine(defs, before, r.name, counted); }
        PutAt(s.counters, r.name, counted, Plus(At(s.counters, r.name, counted).GetOr(ZERO), r.amount), name, key);
      }
      if At(s.counters, name, key).Some? { StoredCountersAreGenuine(defs, before, name, key); }
    }
  }

  /** Whatever was recorded: the line of a stored counter belongs to some counted labels, parses back to them, and carries
      the sum of those labels' own increments. */
  lemma RenderedCounterIsTrue(defs: Catalog, log: seq<Recording>, name: string, key: string, text: real -> string) returns (labels: Labels)
    requires ValidCatalog(defs) && name in defs && defs[name].Counter?
    requires At(RecordAll(defs, log).counters, name, key).Some?
    ensures
      var d, sum := defs[name], TotalOf(IncrementsOf(defs, log, name, labels));
      && key == SeriesKey(d.labelKeys, labels) && Positive(sum)
      && LinesOf(d, RecordAll(defs, log), key, text) == [Sample(name + key, sum)]
      && ReadKey(key) == Some(Given(d.labelKeys, labels))
  {
    var d := defs[name];
    StoredCountersAreGenuine(defs, log, name, key);
    labels :| SeriesKey(d.labelKeys, labels) == key;
    CounterHoldsItsIncrements(defs, log, name, labels);
    forall p <- Given(d.labelKeys, labels) ensures ValidName(p.0) { GivenContains(d.labelKeys, labels, p); }
    ReadKeyInverts(Given(d.labelKeys, labels));
  }

  class MetricsRegistry {
    var defs: Catalog
    var counters: Recorded<Number>
    var histograms: Recorded<Series>

    ghost predicate Valid() reads this { ValidCatalog(defs) }

    ghost function Contents(): Values reads this { Values(counters, histograms) }

    constructor ()
      ensures Valid() && defs == map[] && Contents() == NOTHING
    {
      defs, counters, histograms := map[], map[], map[];
    }

    method DefineCounter(name: string, help: string, labelKeys: Option<seq<string>>)
      requires Valid()
      modifies this`defs
      ensures Valid()
      ensures var d := Counter(name, help, labelKeys.GetOr([])); defs == if ValidDefinition(d) then old(defs)[name := d] else old(defs)
    {
      var d := Counter(name, help, labelKeys.GetOr([]));
      if ValidDefinition(d) { defs := defs[name := d]; }
    }

    method DefineHistogram(name: string, help: string, labelKeys: Option<seq<string>>, buckets: Option<seq<real>>)
      requires Valid()
      modifies this`defs
      ensures Valid()
      ensures var b := if buckets.GetOr([]) != [] then buckets.value else DEFAULT_BUCKETS;
              var d := Histogram(name, help, labelKeys.GetOr([]), b);
              defs == if ValidDefinition(d) then old(defs)[name := d] else old(defs)
    {
      var b := if buckets.Some? && |buckets.value| > 0 then buckets.value else DEFAULT_BUCKETS;
      var d := Histogram(name, help, labelKeys.GetOr([]), b);
      if ValidDefinition(d) { defs := defs[name := d]; }
    }

    method Increment(name: string, labels: Labels, amount: Number)
      requires Valid()
      modifies this`counters
      ensures Valid() && Contents() == Record(defs, old(Contents()), Recording.Increment(name, amount, labels))
      ensures if name in defs && defs[name].Counter? && (amount.PlusInfinity? || (amount.Finite? && amount.value > 0.0))
              then CounterOf(defs, Contents(), name, labels) == Plus(CounterOf(defs, old(Contents()), name, labels), amount)
              else Contents() == old(Contents())
    {
      if name !in defs || !defs[name].Counter? || !Positive(amount) { return; }
      var key := BuildSeriesKey(defs[name].labelKeys, labels);
      var series := if name in counters then counters[name] else map[];
      series := series[key := Plus(if key in series then series[key] else ZERO, amount)];
      counters := counters[name := series];
    }

    /** The first qualifying bucket counts the value; later ones are not looked at. */
    static method CountInBucket(before: map<nat, nat>, buckets: seq<real>, v: real) returns (counts: map<nat, nat>)
      ensures counts == Add(Series(before, 0, 0.0), buckets, v).counts
    {
      counts := before;
      var i := 0;
      while i < |buckets|
        invariant i <= |buckets| && counts == before
        invariant forall j :: 0 <= j < i ==> v > buckets[j]
      {
        if v <= buckets[i] {
          counts := counts[i := CountAt(counts, i) + 1];
          break;
        }
        i := i + 1;
      }
      assert i == FirstBucket(buckets, v);
    }

    method Observe(name: string, value: Number, labels: Labels)
      requires Valid()
      modifies this`histograms
      ensures Valid() && Contents() == Record(defs, old(Contents()), Recording.Observe(name, value, labels))
      ensures if name in defs && defs[name].Histogram? && value.Finite? && value.value >= 0.0
              then
                var before, after := SeriesOf(defs, old(Contents()), name, labels), SeriesOf(defs, Contents(), name, labels);
                after.count == before.count + 1 && after.sum == before.sum + value.value
              else Contents() == old(Contents())
    {
      if name !in defs || !defs[name].Histogram? { return; }
      if !value.Finite? || value.value < 0.0 { return; }
      var buckets := defs[name].buckets;
      var key := BuildSeriesKey(defs[name].labelKeys, labels);
      var series := if name in histograms then histograms[name] else map[];
      var current := if key in series then series[key] else EMPTY_SERIES;
      var counts := CountInBucket(current.counts, buckets, value.value);
      histograms := histograms[name := series[key := Series(counts, current.count + 1, current.sum + value.value)]];
    }

    method CounterValue(name: string, labels: Labels) returns (value: Number)
      ensures value == if name in defs && defs[name].Counter? then CounterOf(defs, Contents(), name, labels) else ZERO
    {
      if name !in defs || !defs[name].Counter? { return ZERO; }
      var key := BuildSeriesKey(defs[name].labelKeys, labels);
      return if name in counters && key in counters[name] then counters[name][key] else ZERO;
    }

    method HistogramCount(name: string, labels: Labels) returns (count: nat)
      ensures count == if name in defs && defs[name].Histogram? then SeriesOf(defs, Contents(), name, labels).count else 0
    {
      if name !in defs || !defs[name].Histogram? { return 0; }
      var key := BuildSeriesKey(defs[name].labelKeys, labels);
      return if name in histograms && key in histograms[name] then histograms[name][key].count else 0;
    }

    method Reset()
      modifies this`counters, this`histograms
      ensures Contents() == NOTHING
    {
      counters, histograms := map[], map[];
    }

    method RenderSeries(name: string, buckets: seq<real>, key: string, entry: Series, text: real -> string) returns (lines: seq<Line>)
      ensures lines == SeriesLines(name, buckets, key, entry, text)
    {
      lines := [];
      var cumulative: nat := 0;
      for i := 0 to |buckets|
        invariant cumulative == Cumulative(entry.counts, i) && |lines| == i
        invariant forall j :: 0 <= j < i ==> lines[j] == BucketLine(name, buckets, key, entry, text, j)
      {
        cumulative := cumulative + CountAt(entry.counts, i);
        var le := EscapeLabelValue(text(buckets[i]));
        lines := lines + [Sample(name + "_bucket" + BucketKey(key, le), Finite(cumulative as real))];
      }
      lines := lines + [Sample(name + "_bucket" + BucketKey(key, "+Inf"), Finite(entry.count as real))];
      lines := lines + [Sample(name + "_sum" + key, Finite(entry.sum)), Sample(name + "_count" + key, Finite(entry.count as real))];
    }

    method RenderKey(d: Definition, key: string, text: real -> string) returns (lines: seq<Line>)
      requires key in KeysOf(d, Contents())
      ensures lines == LinesOf(d, Contents(), key, text)
    {
      match d
      case Counter(name, _, _) => lines := [Sample(name + key, counters[name][key])];
      case Histogram(name, _, _, buckets) => lines := RenderSeries(name, buckets, key, histograms[name][key], text);
    }

    /** One metric: header, then every series once, in the order returned beside them. */
    method RenderMetric(d: Definition, text: real -> string) returns (lines: seq<Line>, order: seq<string>)
      ensures Lists(order, KeysOf(d, Contents()))
      ensures lines == HeaderLines(d) + BodyLines(d, Contents(), order, text)
      ensures |lines| >= 2 && lines[0] == Comment("# HELP " + d.name + " " + d.help)
      ensures lines[1] == Comment("# TYPE " + d.name + " " + match d case Counter(_, _, _) => "counter" case Histogram(_, _, _, _) => "histogram")
    {
      ghost var s := Contents();
      var body: seq<Line> := [];
      order := [];
      var left := KeysOf(d, Values(counters, histograms));
      while left != {}
        invariant left <= KeysOf(d, s) && Lists(order, KeysOf(d, s) - left)
        invariant body == BodyLines(d, s, order, text)
        decreases |left|
      {
        var key :| key in left;
        var block := RenderKey(d, key, text);
        ListsNext(order, KeysOf(d, s), left, key);
        BodyInOrder(d, s, order, [key], text);
        BodyOfOne(d, s, key, text);
        body, order, left := body + block, order + [key], left - {key};
      }
      assert KeysOf(d, s) - left == KeysOf(d, s);
      lines := HeaderLines(d) + body;
    }
  }

  lemma ListsNext(keys: seq<string>, all: set<string>, left: set<string>, key: string)
    requires left <= all && Lists(keys, all - left) && key in left
    ensures Lists(keys + [key], all - (left - {key}))
  {
    forall i | 0 <= i < |keys| ensures keys[i] != key { assert keys[i] in (set k <- keys); }
    assert (set k <- keys + [key]) == (set k <- keys) + {key};
    assert all - left + {key} == all - (left - {key});
  }
}
