/**
 * The Prometheus metrics the exporter writes, kept abstractly: a counter is a number
 * that may only be incremented by a non-negative amount, a gauge a number that may be
 * set or moved either way, and a labelled gauge a partial map from label value to value in
 * which a removed label is absent, which is not the same as 0.
 */
module MetricsStore {
  /** The counters the plugin increments. */
  datatype CounterName =
    | JobsStarted | JobsFailed | JobsDone | JobsCancelled | JobsTimeTotal
    | ServerTimelapses
    | PrinterTravelX | PrinterTravelY | PrinterTravelZ | PrinterExtrusion

  /** The gauges without labels. */
  datatype GaugeName = ServerClients | JobTravelX | JobTravelY | JobTravelZ | JobExtrusion | PrinterFanSpeed

  /** The gauges labelled by a tool name or a file path. */
  datatype FamilyName = PrinterTempsActual | PrinterTempsTarget | JobProgress | JobTimeElapsed | JobTimeEst | JobTimeLeftEst

  /** Every metric's value; a metric never written reads 0, a family never written has no labels. */
  datatype Store = Store(counters: map<CounterName, real>, gauges: map<GaugeName, real>, families: map<FamilyName, map<string, real>>) {
    function Counter(n: CounterName): real {
      if n in counters then counters[n] else 0.0
    }

    function Gauge(n: GaugeName): real {
      if n in gauges then gauges[n] else 0.0
    }

    function Family(f: FamilyName): map<string, real> {
      if f in families then families[f] else map[]
    }

    /** No counter is negative. */
    predicate Valid() {
      forall n :: Counter(n) >= 0.0
    }
  }

  /** Freshly declared metrics. */
  function Empty(): (st: Store)
    ensures st.Valid()
    ensures forall n :: st.Counter(n) == 0.0
    ensures forall g :: st.Gauge(g) == 0.0
    ensures forall f :: st.Family(f) == map[]
  {
    Store(map[], map[], map[])
  }

  /** No counter of `t` is below the same counter of `s`. */
  predicate StoreCountersGrow(s: Store, t: Store) {
    forall n :: t.Counter(n) >= s.Counter(n)
  }

  /** `Counter.inc(amount)` for an amount it accepts. */
  function CounterInc(st: Store, n: CounterName, amount: real): (r: Store)
    requires amount >= 0.0
    ensures r.Counter(n) == st.Counter(n) + amount
    ensures forall m :: m != n ==> r.Counter(m) == st.Counter(m)
    ensures r.gauges == st.gauges && r.families == st.families
  {
    st.(counters := st.counters[n := st.Counter(n) + amount])
  }

  /** `Gauge.set(v)`. */
  function GaugeSet(st: Store, n: GaugeName, v: real): (r: Store)
    ensures r.Gauge(n) == v
    ensures forall m :: m != n ==> r.Gauge(m) == st.Gauge(m)
    ensures r.counters == st.counters && r.families == st.families
  {
    st.(gauges := st.gauges[n := v])
  }

  /** `Gauge.inc(amount)`, and `Gauge.dec(amount)` as a negative amount. */
  function GaugeAdd(st: Store, n: GaugeName, amount: real): (r: Store)
    ensures r.Gauge(n) == st.Gauge(n) + amount
    ensures forall m :: m != n ==> r.Gauge(m) == st.Gauge(m)
    ensures r.counters == st.counters && r.families == st.families
  {
    st.(gauges := st.gauges[n := st.Gauge(n) + amount])
  }

  /** `Gauge.labels(labelValue).set(v)`: the label is present afterwards. */
  function LabelSet(st: Store, f: FamilyName, labelValue: string, v: real): (r: Store)
    ensures r.Family(f) == st.Family(f)[labelValue := v]
    ensures forall g :: g != f ==> r.Family(g) == st.Family(g)
    ensures r.counters == st.counters && r.gauges == st.gauges
  {
    st.(families := st.families[f := st.Family(f)[labelValue := v]])
  }

  /** `Gauge.remove(labelValue)`: the label is absent afterwards, whether or not it was present. */
  function LabelRemove(st: Store, f: FamilyName, labelValue: string): (r: Store)
    ensures r.Family(f) == st.Family(f) - {labelValue}
    ensures forall g :: g != f ==> r.Family(g) == st.Family(g)
    ensures r.counters == st.counters && r.gauges == st.gauges
  {
    st.(families := st.families[f := st.Family(f) - {labelValue}])
  }

  /** Removing a label twice is removing it once. */
  lemma LabelRemoveIdempotent(st: Store, f: FamilyName, labelValue: string)
    ensures LabelRemove(LabelRemove(st, f, labelValue), f, labelValue) == LabelRemove(st, f, labelValue)
  {
    var once := LabelRemove(st, f, labelValue);
    assert once.Family(f) - {labelValue} == once.Family(f);
  }

  /**
   * Removing a label that is absent changes no metric a scrape can read, whether or not
   * the family was ever written, and once it was written the store is the same value.
   */
  lemma LabelRemoveAbsent(st: Store, f: FamilyName, labelValue: string)
    requires labelValue !in st.Family(f)
    ensures forall g :: LabelRemove(st, f, labelValue).Family(g) == st.Family(g)
    ensures LabelRemove(st, f, labelValue).counters == st.counters
    ensures LabelRemove(st, f, labelValue).gauges == st.gauges
    ensures f in st.families ==> LabelRemove(st, f, labelValue) == st
  {
    assert st.Family(f) - {labelValue} == st.Family(f);
    if f in st.families {
      assert st.families[f := st.Family(f)] == st.families;
    }
  }

  /** Every operation other than a counter increment leaves the counters as they were. */
  lemma OnlyIncrementsMoveCounters(st: Store, n: CounterName, amount: real, g: GaugeName, v: real, f: FamilyName, labelValue: string)
    requires amount >= 0.0
    ensures StoreCountersGrow(st, CounterInc(st, n, amount))
    ensures st.Valid() ==> CounterInc(st, n, amount).Valid()
    ensures GaugeSet(st, g, v).counters == st.counters
    ensures GaugeAdd(st, g, v).counters == st.counters
    ensures LabelSet(st, f, labelValue, v).counters == st.counters
    ensures LabelRemove(st, f, labelValue).counters == st.counters
  {
  }

  /** The metric registry, updated in place. */
  class Metrics {
    var counters: map<CounterName, real>
    var gauges: map<GaugeName, real>
    var families: map<FamilyName, map<string, real>>

    function Snapshot(): Store
      reads this
    {
      Store(counters, gauges, families)
    }

    constructor()
      ensures Snapshot() == Empty()
    {
      counters, gauges, families := map[], map[], map[];
    }

    /** `Counter.inc(amount)`: a negative amount raises `ValueError` and changes nothing. */
    method Inc(n: CounterName, amount: real) returns (raised: bool)
      modifies this
      ensures raised <==> amount < 0.0
      ensures Snapshot() == if raised then old(Snapshot()) else CounterInc(old(Snapshot()), n, amount)
    {
      if amount < 0.0 {
        return true;
      }
      counters := counters[n := Snapshot().Counter(n) + amount];
      return false;
    }

    /** `Gauge.set(v)`. */
    method Set(n: GaugeName, v: real)
      modifies this
      ensures Snapshot() == GaugeSet(old(Snapshot()), n, v)
    {
      gauges := gauges[n := v];
    }

    /** `Gauge.inc(amount)`. */
    method GaugeInc(n: GaugeName, amount: real)
      modifies this
      ensures Snapshot() == GaugeAdd(old(Snapshot()), n, amount)
    {
      gauges := gauges[n := Snapshot().Gauge(n) + amount];
    }

    /** `Gauge.dec(amount)`. */
    method GaugeDec(n: GaugeName, amount: real)
      modifies this
      ensures Snapshot() == GaugeAdd(old(Snapshot()), n, -amount)
    {
      gauges := gauges[n := Snapshot().Gauge(n) - amount];
    }

    /** `Gauge.labels(labelValue).set(v)`. */
    method LabelsSet(f: FamilyName, labelValue: string, v: real)
      modifies this
      ensures Snapshot() == LabelSet(old(Snapshot()), f, labelValue, v)
    {
      families := families[f := Snapshot().Family(f)[labelValue := v]];
    }

    /** `Gauge.remove(labelValue)`. */
    method Remove(f: FamilyName, labelValue: string)
      modifies this
      ensures Snapshot() == LabelRemove(old(Snapshot()), f, labelValue)
    {
      families := families[f := Snapshot().Family(f) - {labelValue}];
    }
  }
}
