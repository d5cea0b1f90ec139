/**
 The promotion verdict of the A/B ceremony (src/receipt/ab_opt.rs:16-148, 496-577,
 664-796), over reals. A run event is a parsed receipt entry: `None` where the field
 is missing, of another type, or not finite.
 */
module AbOpt {
  import opened Wrappers

  const TOPOLOGIES: seq<string> := ["wavenet_a1", "wavenet_a2", "lstm"]
  const MIN_RUNS: nat := 3
  const PROMOTION_MARGIN_PCT: real := 1.0
  const MARGIN_EPSILON: real := 0.000000001

  datatype RunEvent = RunEvent(
    topology: Option<string>, run: Option<nat>,
    p99: Option<real>, max: Option<real>, mean: Option<real>, samples: Option<nat>)

  datatype RunMetrics = RunMetrics(p99: real, max: real, samples: nat)

  datatype ReceiptError = MissingTopology | MissingRun | BadMetrics | Repeated | TooFewRuns | Gap | Extra | NoMedian

  type Key = (string, nat)

  // ----- the metrics table -----

  predicate Named(r: RunEvent) {
    r.topology.Some? && r.topology.value != ""
  }

  predicate Numbered(r: RunEvent) {
    r.run.Some? && r.run.value >= 1
  }

  function Metrics(r: RunEvent): Option<RunMetrics> {
    if r.p99.None? || r.max.None? || r.mean.None? then None
    else if r.p99.value <= 0.0 || r.max.value <= 0.0 || r.max.value < r.p99.value then None
    else if r.samples.None? || r.samples.value == 0 then None
    else Some(RunMetrics(r.p99.value, r.max.value, r.samples.value))
  }

  predicate Usable(r: RunEvent) {
    Named(r) && Numbered(r) && Metrics(r).Some?
  }

  function KeyOf(r: RunEvent): Key
    requires Usable(r)
  {
    (r.topology.value, r.run.value)
  }

  predicate AllUsable(runs: seq<RunEvent>) {
    forall i :: 0 <= i < |runs| ==> Usable(runs[i])
  }

  // Every event can be used and no two share topology and run.
  predicate WellFormed(runs: seq<RunEvent>) {
    && AllUsable(runs)
    && forall i, j :: 0 <= i < j < |runs| ==> KeyOf(runs[i]) != KeyOf(runs[j])
  }

  function Table(runs: seq<RunEvent>): map<Key, RunMetrics>
    requires AllUsable(runs)
  {
    if runs == [] then map[]
    else
      var last := runs[|runs| - 1];
      Table(runs[..|runs| - 1])[KeyOf(last) := Metrics(last).value]
  }

  lemma {:induction false} TableKeys(runs: seq<RunEvent>, key: Key)
    requires AllUsable(runs)
    ensures key in Table(runs) <==> exists i :: 0 <= i < |runs| && KeyOf(runs[i]) == key
  {
    if runs != [] { TableKeys(runs[..|runs| - 1], key); }
  }

  // The table holds every event of a well-formed receipt under its own key.
  lemma {:induction false} TableHoldsAll(runs: seq<RunEvent>, i: nat)
    requires WellFormed(runs) && i < |runs|
    ensures KeyOf(runs[i]) in Table(runs) && Table(runs)[KeyOf(runs[i])] == Metrics(runs[i]).value
    ensures |Table(runs)| == |runs|
  {
    var init := runs[..|runs| - 1];
    assert forall j :: 0 <= j < |init| ==> KeyOf(init[j]) == KeyOf(runs[j]);
    if i < |init| { TableHoldsAll(init, i); } else if init != [] { TableHoldsAll(init, 0); }
    TableKeys(init, KeyOf(runs[|runs| - 1]));
  }

  // Every entry of the table is a positive p99 below its maximum, over some samples,
  // and an event is unusable for no other reason than its name, its number or these.
  lemma {:induction false} TableIsSane(runs: seq<RunEvent>, key: Key)
    requires AllUsable(runs) && key in Table(runs)
    ensures 0.0 < Table(runs)[key].p99 <= Table(runs)[key].max && Table(runs)[key].samples > 0
    ensures key.0 != "" && key.1 >= 1
  {
    var init, last := runs[..|runs| - 1], runs[|runs| - 1];
    assert forall j :: 0 <= j < |init| ==> init[j] == runs[j];
    if KeyOf(last) != key { TableIsSane(init, key); }
  }

  predicate Complete(r: RunEvent, t: string, k: nat, p99: real, max: real, mean: real, samples: nat) {
    && r == RunEvent(Some(t), Some(k), Some(p99), Some(max), Some(mean), Some(samples))
    && t != "" && k >= 1 && 0.0 < p99 <= max && samples > 0
  }

  lemma UsableExactly(r: RunEvent)
    ensures Usable(r) <==> exists t, k, p99, max, mean, samples :: Complete(r, t, k, p99, max, mean, samples)
  {
    if Usable(r) {
      assert Complete(r, r.topology.value, r.run.value, r.p99.value, r.max.value, r.mean.value, r.samples.value);
    }
  }

  // The events before the i-th are well-formed and it is the first that is not, for
  // the first reason there is.
  predicate FirstFault(runs: seq<RunEvent>, i: nat, e: ReceiptError)
    requires i < |runs|
  {
    && WellFormed(runs[..i])
    && match e
       case MissingTopology => !Named(runs[i])
       case MissingRun => Named(runs[i]) && !Numbered(runs[i])
       case BadMetrics => Named(runs[i]) && Numbered(runs[i]) && Metrics(runs[i]).None?
       case Repeated => Usable(runs[i]) && exists j :: 0 <= j < i && KeyOf(runs[..i][j]) == KeyOf(runs[i])
       case _ => false
  }

  // Fills the table event by event; any unusable or repeated event is an error.
  method ExtractMetricsMap(runs: seq<RunEvent>) returns (r: Result<map<Key, RunMetrics>, ReceiptError>)
    ensures r.Ok? <==> WellFormed(runs)
    ensures r.Ok? ==> r.value == Table(runs)
    ensures r.Err? ==> exists i :: 0 <= i < |runs| && FirstFault(runs, i, r.error)
  {
    var table: map<Key, RunMetrics> := map[];
    for i := 0 to |runs|
      invariant WellFormed(runs[..i]) && table == Table(runs[..i])
    {
      var event := runs[i];
      assert event in runs;
      if !Named(event) {
        assert FirstFault(runs, i, MissingTopology);
        return Err(MissingTopology);
      }
      if !Numbered(event) {
        assert FirstFault(runs, i, MissingRun);
        return Err(MissingRun);
      }
      var metrics := Metrics(event);
      if metrics.None? {
        assert FirstFault(runs, i, BadMetrics);
        return Err(BadMetrics);
      }
      var key := (event.topology.value, event.run.value);
      TableKeys(runs[..i], key);
      assert forall j :: 0 <= j < i ==> runs[..i][j] == runs[j];
      if key in table {
        assert FirstFault(runs, i, Repeated);
        return Err(Repeated);
      }
      assert runs[..i + 1][..i] == runs[..i];
      table := table[key := metrics.value];
    }
    assert runs[..|runs|] == runs;
    return Ok(table);
  }

  // ----- full coverage -----

  function RunKeys(topology: string, runs: nat): set<Key> {
    set k | 1 <= k <= runs :: (topology, k)
  }

  // Topologies times runs 1 to `runs`.
  function Expected(runs: nat): set<Key> {
    RunKeys(TOPOLOGIES[0], runs) + RunKeys(TOPOLOGIES[1], runs) + RunKeys(TOPOLOGIES[2], runs)
  }

  lemma {:induction false} RunKeysCount(topology: string, runs: nat)
    ensures |RunKeys(topology, runs)| == runs
  {
    if runs == 0 {
      assert RunKeys(topology, 0) == {};
    } else {
      RunKeysCount(topology, runs - 1);
      assert RunKeys(topology, runs) == RunKeys(topology, runs - 1) + {(topology, runs)};
    }
  }

  lemma TopologiesDiffer()
    ensures TOPOLOGIES[0] != TOPOLOGIES[1] && TOPOLOGIES[0] != TOPOLOGIES[2] && TOPOLOGIES[1] != TOPOLOGIES[2]
  {
    assert TOPOLOGIES[0][0] != TOPOLOGIES[2][0] && TOPOLOGIES[0][9] != TOPOLOGIES[1][9];
  }

  lemma ExpectedCount(runs: nat)
    ensures |Expected(runs)| == 3 * runs
  {
    var a, b, c := RunKeys(TOPOLOGIES[0], runs), RunKeys(TOPOLOGIES[1], runs), RunKeys(TOPOLOGIES[2], runs);
    TopologiesDiffer();
    RunKeysCount(TOPOLOGIES[0], runs);
    RunKeysCount(TOPOLOGIES[1], runs);
    RunKeysCount(TOPOLOGIES[2], runs);
    assert a !! b && (a + b) !! c;
  }

  lemma {:induction false} SameSizeSubset<T>(a: set<T>, b: set<T>)
    requires a <= b && |a| == |b|
    ensures a == b
  {
    if a != {} {
      var x :| x in a;
      SameSizeSubset(a - {x}, b - {x});
    }
  }

  method CoversTopology(table: map<Key, RunMetrics>, topology: string, runs: nat) returns (covered: bool)
    ensures covered <==> RunKeys(topology, runs) <= table.Keys
  {
    for k := 1 to runs + 1
      invariant forall j :: 1 <= j < k ==> (topology, j) in table
    {
      if (topology, k) !in table {
        assert (topology, k) in RunKeys(topology, runs);
        return false;
      }
    }
    return true;
  }

  // The key checks and the size check together admit exactly the expected keys.
  method RequireFullCoverage(table: map<Key, RunMetrics>, runs: nat) returns (r: Result<(), ReceiptError>)
    ensures r.Ok? <==> runs >= MIN_RUNS && table.Keys == Expected(runs)
    ensures r == Err(TooFewRuns) <==> runs < MIN_RUNS
    ensures r == Err(Gap) <==> runs >= MIN_RUNS && !(Expected(runs) <= table.Keys)
    ensures r == Err(Extra) <==> runs >= MIN_RUNS && Expected(runs) < table.Keys
  {
    hide RunKeys;
    if runs < MIN_RUNS { return Err(TooFewRuns); }
    var t := 0;
    while t < 3
      invariant 0 <= t <= 3
      invariant t > 0 ==> RunKeys(TOPOLOGIES[0], runs) <= table.Keys
      invariant t > 1 ==> RunKeys(TOPOLOGIES[1], runs) <= table.Keys
      invariant t > 2 ==> RunKeys(TOPOLOGIES[2], runs) <= table.Keys
    {
      var covered := CoversTopology(table, TOPOLOGIES[t], runs);
      if !covered { return Err(Gap); }
      t := t + 1;
    }
    ExpectedCount(runs);
    assert |table.Keys| == |table|;
    if |table| != 3 * runs { return Err(Extra); }
    SameSizeSubset(Expected(runs), table.Keys);
    return Ok(());
  }

  // ----- medians -----

  // How many values satisfy `p`.
  function Count(values: seq<real>, p: real -> bool): nat {
    if values == [] then 0
    else Count(values[..|values| - 1], p) + if p(values[|values| - 1]) then 1 else 0
  }

  function AtMost(bound: real): real -> bool {
    x => x <= bound
  }

  function Below(bound: real): real -> bool {
    x => x < bound
  }

  // Where a value satisfies `p`, every smaller one does.
  ghost predicate DownClosed(p: real -> bool) {
    forall x, y :: x <= y && p(y) ==> p(x)
  }

  predicate Ascending(values: seq<real>) {
    forall i, j :: 0 <= i < j < |values| ==> values[i] <= values[j]
  }

  function Insert(values: seq<real>, x: real): (r: seq<real>)
    ensures |r| == |values| + 1
  {
    if values == [] || values[|values| - 1] <= x then values + [x]
    else Insert(values[..|values| - 1], x) + [values[|values| - 1]]
  }

  // What the library sort returns.
  function Sort(values: seq<real>): (r: seq<real>)
    ensures |r| == |values|
  {
    if values == [] then [] else Insert(Sort(values[..|values| - 1]), values[|values| - 1])
  }

  lemma CountSnoc(values: seq<real>, v: real, p: real -> bool)
    ensures Count(values + [v], p) == Count(values, p) + if p(v) then 1 else 0
  {
    assert (values + [v])[..|values|] == values;
  }

  predicate AllLe(values: seq<real>, x: real) {
    forall i :: 0 <= i < |values| ==> values[i] <= x
  }

  lemma {:induction false} InsertBounded(values: seq<real>, v: real, x: real)
    requires AllLe(values, x) && v <= x
    ensures AllLe(Insert(values, v), x)
  {
    if values != [] && values[|values| - 1] > v { InsertBounded(values[..|values| - 1], v, x); }
  }

  lemma {:induction false} InsertAscends(values: seq<real>, v: real)
    requires Ascending(values)
    ensures Ascending(Insert(values, v))
  {
    if values != [] && values[|values| - 1] > v {
      InsertAscends(values[..|values| - 1], v);
      InsertBounded(values[..|values| - 1], v, values[|values| - 1]);
    }
  }

  lemma {:induction false} InsertCounts(values: seq<real>, v: real, p: real -> bool)
    ensures Count(Insert(values, v), p) == Count(values, p) + if p(v) then 1 else 0
  {
    if values == [] || values[|values| - 1] <= v {
      CountSnoc(values, v, p);
    } else {
      var init := values[..|values| - 1];
      InsertCounts(init, v, p);
      CountSnoc(Insert(init, v), values[|values| - 1], p);
    }
  }

  // Sorting puts the values in order and keeps how many of them satisfy anything.
  lemma {:induction false} SortSorts(values: seq<real>, p: real -> bool)
    ensures Ascending(Sort(values)) && Count(Sort(values), p) == Count(values, p)
  {
    if values != [] {
      SortSorts(values[..|values| - 1], p);
      InsertAscends(Sort(values[..|values| - 1]), values[|values| - 1]);
      InsertCounts(Sort(values[..|values| - 1]), values[|values| - 1], p);
    }
  }

  // Rank: in ascending values the k-th satisfies a bound exactly when more than k do.
  lemma {:induction false} RankCounts(values: seq<real>, k: nat, p: real -> bool)
    requires Ascending(values) && k < |values| && DownClosed(p)
    ensures p(values[k]) <==> Count(values, p) > k
    ensures Count(values, p) <= |values|
  {
    var init := values[..|values| - 1];
    CountAtMost(init, p);
    if k < |init| {
      RankCounts(init, k, p);
    } else if p(values[k]) {
      AllCount(init, p);
    }
  }

  lemma {:induction false} CountAtMost(values: seq<real>, p: real -> bool)
    ensures Count(values, p) <= |values|
  {
    if values != [] { CountAtMost(values[..|values| - 1], p); }
  }

  lemma {:induction false} AllCount(values: seq<real>, p: real -> bool)
    requires forall i :: 0 <= i < |values| ==> p(values[i])
    ensures Count(values, p) == |values|
  {
    if values != [] {
      AllCount(values[..|values| - 1], p);
    }
  }

  function TopologyValues(runs: seq<RunEvent>, topology: string, field: RunEvent -> Option<real>): seq<real> {
    if runs == [] then []
    else
      var r := runs[|runs| - 1];
      TopologyValues(runs[..|runs| - 1], topology, field)
      + if r.topology == Some(topology) && field(r).Some? then [field(r).value] else []
  }

  function Median(values: seq<real>): Option<real> {
    if values == [] then None else Some(Sort(values)[|values| / 2])
  }

  // The upper median, by counting: more than half of the values, rounded down, are at
  // most `m`, and at most that many are below it.
  predicate IsMedian(values: seq<real>, m: real) {
    Count(values, Below(m)) <= |values| / 2 < Count(values, AtMost(m))
  }

  // The middle element after sorting is the one value that splits the others so.
  lemma MedianSplits(values: seq<real>, m: real)
    requires values != []
    ensures Median(values) == Some(m) <==> IsMedian(values, m)
  {
    hide Sort, Count;
    var middle := Sort(values)[|values| / 2];
    SortSorts(values, Below(m));
    SortSorts(values, AtMost(m));
    RankCounts(Sort(values), |values| / 2, Below(m));
    RankCounts(Sort(values), |values| / 2, AtMost(m));
  }

  // So at least half of the values are at most the median, and at least half are no less.
  lemma MedianHalves(values: seq<real>)
    requires values != []
    ensures var m := Median(values).value;
            && 2 * Count(values, AtMost(m)) >= |values|
            && 2 * (|values| - Count(values, Below(m))) >= |values|
  {
    hide Count, Median;
    MedianExists(values);
    MedianSplits(values, Median(values).value);
  }

  lemma MedianExists(values: seq<real>)
    ensures Median(values).Some? <==> values != []
  {
  }

  method MedianTopologyNum(runs: seq<RunEvent>, topology: string, field: RunEvent -> Option<real>)
    returns (median: Option<real>)
    ensures median == Median(TopologyValues(runs, topology, field))
  {
    var values: seq<real> := [];
    for i := 0 to |runs|
      invariant values == TopologyValues(runs[..i], topology, field)
    {
      assert runs[..i + 1][..i] == runs[..i];
      if runs[i].topology == Some(topology) && field(runs[i]).Some? {
        values := values + [field(runs[i]).value];
      }
    }
    assert runs[..|runs|] == runs;
    if values == [] { return None; }
    var sorted := Sort(values);
    return Some(sorted[|sorted| / 2]);
  }

  // ----- from events to runs -----

  function P99(r: RunEvent): Option<real> {
    r.p99
  }

  // Over runs 1 to `n` of the table: how many p99 satisfy `p`; how many exist.
  function RunsWith(table: map<Key, RunMetrics>, topology: string, n: nat, p: real -> bool): nat {
    if n == 0 then 0
    else RunsWith(table, topology, n - 1, p)
         + if (topology, n) in table && p(table[(topology, n)].p99) then 1 else 0
  }

  function RunsIn(table: map<Key, RunMetrics>, topology: string, n: nat): nat {
    if n == 0 then 0
    else RunsIn(table, topology, n - 1) + if (topology, n) in table then 1 else 0
  }

  lemma {:induction false} RunsGrow(table: map<Key, RunMetrics>, key: Key, m: RunMetrics,
                                    topology: string, n: nat, p: real -> bool)
    requires key !in table
    ensures var counted := key.0 == topology && 1 <= key.1 <= n;
            && RunsWith(table[key := m], topology, n, p)
               == RunsWith(table, topology, n, p) + (if counted && p(m.p99) then 1 else 0)
            && RunsIn(table[key := m], topology, n) == RunsIn(table, topology, n) + (if counted then 1 else 0)
  {
    if n > 0 { RunsGrow(table, key, m, topology, n - 1, p); }
  }

  // No event of the topology is numbered above `n`.
  predicate Within(runs: seq<RunEvent>, topology: string, n: nat) {
    forall i :: 0 <= i < |runs| && runs[i].topology == Some(topology) && runs[i].run.Some? ==> runs[i].run.value <= n
  }

  lemma LastEvent(runs: seq<RunEvent>, topology: string, n: nat)
    requires WellFormed(runs) && Within(runs, topology, n) && runs != []
    ensures var init, r := runs[..|runs| - 1], runs[|runs| - 1];
            && WellFormed(init) && Within(init, topology, n) && Usable(r) && KeyOf(r) !in Table(init)
            && Table(runs) == Table(init)[KeyOf(r) := Metrics(r).value]
            && (r.topology == Some(topology) ==> 1 <= r.run.value <= n)
  {
    var init, r := runs[..|runs| - 1], runs[|runs| - 1];
    assert forall j :: 0 <= j < |init| ==> init[j] == runs[j];
    TableKeys(init, KeyOf(r));
  }

  lemma LastValue(runs: seq<RunEvent>, topology: string, p: real -> bool)
    requires runs != [] && Usable(runs[|runs| - 1])
    ensures var init, r := runs[..|runs| - 1], runs[|runs| - 1];
            var values, counted := TopologyValues(init, topology, P99), r.topology == Some(topology);
            && Count(TopologyValues(runs, topology, P99), p)
               == Count(values, p) + (if counted && p(Metrics(r).value.p99) then 1 else 0)
            && |TopologyValues(runs, topology, P99)| == |values| + (if counted then 1 else 0)
  {
    hide Count;
    var values, r := TopologyValues(runs[..|runs| - 1], topology, P99), runs[|runs| - 1];
    CountSnoc(values, r.p99.value, p);
    assert values + [] == values;
    assert P99(r) == r.p99;
  }

  // Whatever the order of the events, their values count as the table's runs do.
  lemma {:induction false} EventsCountAsRuns(runs: seq<RunEvent>, topology: string, n: nat, p: real -> bool)
    requires WellFormed(runs) && Within(runs, topology, n)
    ensures Count(TopologyValues(runs, topology, P99), p) == RunsWith(Table(runs), topology, n, p)
    ensures |TopologyValues(runs, topology, P99)| == RunsIn(Table(runs), topology, n)
  {
    hide WellFormed, Within, Metrics, Count, RunsWith, RunsIn;
    if runs == [] {
      EmptyTable(topology, n, p);
      EmptyValues(topology, p);
    } else {
      hide TopologyValues;
      LastEvent(runs, topology, n);
      var init, r := runs[..|runs| - 1], runs[|runs| - 1];
      EventsCountAsRuns(init, topology, n, p);
      RunsGrow(Table(init), KeyOf(r), Metrics(r).value, topology, n, p);
      LastValue(runs, topology, p);
    }
  }

  lemma EmptyValues(topology: string, p: real -> bool)
    ensures TopologyValues([], topology, P99) == [] && Count([], p) == 0
  {
  }

  lemma {:induction false} EmptyTable(topology: string, n: nat, p: real -> bool)
    ensures RunsWith(map[], topology, n, p) == 0 == RunsIn(map[], topology, n)
  {
    if n > 0 { EmptyTable(topology, n - 1, p); }
  }

  predicate Covers(table: map<Key, RunMetrics>, topology: string, n: nat) {
    forall k :: 1 <= k <= n ==> (topology, k) in table
  }

  lemma {:induction false} CoveredRuns(table: map<Key, RunMetrics>, topology: string, n: nat)
    requires Covers(table, topology, n)
    ensures RunsIn(table, topology, n) == n
  {
    if n > 0 { CoveredRuns(table, topology, n - 1); }
  }

  // Each run of the new table is at most 0.99 of the same-numbered old run.
  predicate Improves(before: map<Key, RunMetrics>, after: map<Key, RunMetrics>, topology: string, n: nat) {
    && Covers(before, topology, n) && Covers(after, topology, n)
    && forall k :: 1 <= k <= n ==> after[(topology, k)].p99 <= 0.99 * before[(topology, k)].p99
  }

  // What is left of the old value at the margin, tolerance included.
  const AT_MARGIN: real := 1.0 - (PROMOTION_MARGIN_PCT - MARGIN_EPSILON) / 100.0

  // Each run of the new table is above the margin of the same-numbered old run.
  predicate FallsShort(before: map<Key, RunMetrics>, after: map<Key, RunMetrics>, topology: string, n: nat) {
    && Covers(before, topology, n) && Covers(after, topology, n)
    && forall k :: 1 <= k <= n ==> after[(topology, k)].p99 > AT_MARGIN * before[(topology, k)].p99
  }

  // Run by run, what satisfies `p` in one table satisfies `q` in the other.
  ghost predicate Carries(a: map<Key, RunMetrics>, b: map<Key, RunMetrics>, topology: string, n: nat,
                          p: real -> bool, q: real -> bool)
  {
    && Covers(a, topology, n) && Covers(b, topology, n)
    && forall k :: 1 <= k <= n && p(a[(topology, k)].p99) ==> q(b[(topology, k)].p99)
  }

  lemma {:induction false} CountsDominate(a: map<Key, RunMetrics>, b: map<Key, RunMetrics>,
                                          topology: string, n: nat, p: real -> bool, q: real -> bool)
    requires Carries(a, b, topology, n, p, q)
    ensures RunsWith(a, topology, n, p) <= RunsWith(b, topology, n, q)
  {
    if n > 0 {
      CountsDominate(a, b, topology, n - 1, p, q);
      assert (topology, n) in a && (topology, n) in b;
    }
  }

  // ----- domination -----

  // Every event of a covered topology has a run number within the coverage.
  predicate CoveredEvents(runs: seq<RunEvent>, n: nat) {
    WellFormed(runs) && Table(runs).Keys == Expected(n)
  }

  lemma EventInCoverage(runs: seq<RunEvent>, n: nat, i: nat)
    requires CoveredEvents(runs, n) && i < |runs|
    ensures 1 <= runs[i].run.value <= n && runs[i].topology.value in TOPOLOGIES
  {
    TableKeys(runs, KeyOf(runs[i]));
    assert KeyOf(runs[i]) in Expected(n);
  }

  lemma CoverageCovers(runs: seq<RunEvent>, n: nat, topology: string)
    requires CoveredEvents(runs, n) && topology in TOPOLOGIES
    ensures Covers(Table(runs), topology, n)
  {
    forall k | 1 <= k <= n ensures (topology, k) in Table(runs) {
      assert (topology, k) in Expected(n);
    }
  }

  lemma CountsOf(runs: seq<RunEvent>, n: nat, topology: string, p: real -> bool)
    requires CoveredEvents(runs, n) && topology in TOPOLOGIES
    ensures var values := TopologyValues(runs, topology, P99);
            |values| == n && Count(values, p) == RunsWith(Table(runs), topology, n, p)
  {
    hide CoveredEvents, Covers, Expected, TopologyValues;
    CoveredIsWellFormed(runs, n);
    forall i | 0 <= i < |runs| && runs[i].topology == Some(topology) && runs[i].run.Some?
      ensures runs[i].run.value <= n
    {
      EventInCoverage(runs, n, i);
    }
    CoverageCovers(runs, n, topology);
    EventsCountAsRuns(runs, topology, n, p);
    CoveredRuns(Table(runs), topology, n);
  }

  lemma CoveredIsWellFormed(runs: seq<RunEvent>, n: nat)
    requires CoveredEvents(runs, n)
    ensures WellFormed(runs)
  {
  }

  // The counts of two covered receipts, bound against bound.
  lemma ReceiptsDominate(from: seq<RunEvent>, to: seq<RunEvent>, n: nat, topology: string,
                         p: real -> bool, q: real -> bool)
    requires CoveredEvents(from, n) && CoveredEvents(to, n) && topology in TOPOLOGIES
    requires WellFormed(from) && WellFormed(to) && Carries(Table(from), Table(to), topology, n, p, q)
    ensures var a, b := TopologyValues(from, topology, P99), TopologyValues(to, topology, P99);
            |a| == |b| == n && Count(Sort(a), p) <= Count(Sort(b), q) && Ascending(Sort(a)) && Ascending(Sort(b))
  {
    hide CoveredEvents, Carries, TopologyValues, Sort, Count, RunsWith, Table, WellFormed;
    CountsOf(from, n, topology, p);
    CountsOf(to, n, topology, q);
    WellFormedIsUsable(from);
    WellFormedIsUsable(to);
    CountsDominate(Table(from), Table(to), topology, n, p, q);
    SortSorts(TopologyValues(from, topology, P99), p);
    SortSorts(TopologyValues(to, topology, P99), q);
  }

  // Every order statistic, the median among them, obeys the bound its runs obey.
  lemma RanksDominate(before: seq<RunEvent>, after: seq<RunEvent>, n: nat, topology: string, k: nat)
    requires CoveredEvents(before, n) && CoveredEvents(after, n) && topology in TOPOLOGIES && k < n
    requires Improves(Table(before), Table(after), topology, n)
    ensures var a, b := TopologyValues(before, topology, P99), TopologyValues(after, topology, P99);
            |a| == |b| == n && Sort(b)[k] <= 0.99 * Sort(a)[k]
  {
    hide CoveredEvents, TopologyValues, Sort, Count, Table;
    CoveredIsWellFormed(before, n);
    CoveredIsWellFormed(after, n);
    CountsOf(before, n, topology, AtMost(0.0));
    var y := Sort(TopologyValues(before, topology, P99))[k];
    ReceiptsDominate(before, after, n, topology, AtMost(y), AtMost(0.99 * y));
    RankCounts(Sort(TopologyValues(before, topology, P99)), k, AtMost(y));
    RankCounts(Sort(TopologyValues(after, topology, P99)), k, AtMost(0.99 * y));
  }

  // And the converse: if every run falls short of the margin, so does every order statistic.
  lemma RanksFallShort(before: seq<RunEvent>, after: seq<RunEvent>, n: nat, topology: string, k: nat)
    requires CoveredEvents(before, n) && CoveredEvents(after, n) && topology in TOPOLOGIES && k < n
    requires FallsShort(Table(before), Table(after), topology, n)
    ensures var a, b := TopologyValues(before, topology, P99), TopologyValues(after, topology, P99);
            |a| == |b| == n && Sort(b)[k] > AT_MARGIN * Sort(a)[k]
  {
    hide CoveredEvents, TopologyValues, Sort, Count, Table;
    CoveredIsWellFormed(before, n);
    CoveredIsWellFormed(after, n);
    CountsOf(before, n, topology, AtMost(0.0));
    var y := Sort(TopologyValues(before, topology, P99))[k];
    ReceiptsDominate(after, before, n, topology, AtMost(AT_MARGIN * y), Below(y));
    RankCounts(Sort(TopologyValues(before, topology, P99)), k, Below(y));
    RankCounts(Sort(TopologyValues(after, topology, P99)), k, AtMost(AT_MARGIN * y));
  }

  // ----- promotion -----

  // The percent improvement of the medians reaches the margin.
  predicate Promoted(before: real, after: real)
    requires before > 0.0
  {
    (before - after) / before * 100.0 >= PROMOTION_MARGIN_PCT - MARGIN_EPSILON
  }

  // A bound free of the division: promotion is a 1% margin up to the tolerance.
  lemma PromotedExactly(before: real, after: real)
    requires before > 0.0
    ensures Promoted(before, after) <==> (before - after) * 100.0 >= (PROMOTION_MARGIN_PCT - MARGIN_EPSILON) * before
    ensures after <= 0.99 * before ==> Promoted(before, after)
  {
    var gain := (before - after) / before;
    assert gain * before == before - after;
    ScaleBound(gain * 100.0, PROMOTION_MARGIN_PCT - MARGIN_EPSILON, before);
  }

  lemma ScaleBound(a: real, b: real, scale: real)
    requires scale > 0.0
    ensures a >= b <==> a * scale >= b * scale
  {
    if a >= b {
      assert (a - b) * scale >= 0.0;
    } else {
      assert (b - a) * scale > 0.0;
    }
  }

  lemma {:induction false} ValuesPositive(runs: seq<RunEvent>, topology: string)
    requires AllUsable(runs)
    ensures forall i :: 0 <= i < |TopologyValues(runs, topology, P99)| ==> TopologyValues(runs, topology, P99)[i] > 0.0
  {
    if runs != [] {
      var init, r := runs[..|runs| - 1], runs[|runs| - 1];
      assert forall j :: 0 <= j < |init| ==> init[j] == runs[j];
      ValuesPositive(init, topology);
      assert Usable(r) && P99(r) == r.p99 && r.p99.value > 0.0;
    }
  }

  lemma {:induction false} CountNone(values: seq<real>, p: real -> bool)
    requires forall i :: 0 <= i < |values| ==> !p(values[i])
    ensures Count(values, p) == 0
  {
    if values != [] { CountNone(values[..|values| - 1], p); }
  }

  // The medians of a usable receipt are positive.
  lemma MedianPositive(runs: seq<RunEvent>, topology: string)
    requires AllUsable(runs)
    ensures var median := Median(TopologyValues(runs, topology, P99)); median.Some? ==> median.value > 0.0
  {
    hide Count, TopologyValues, Sort;
    var values := TopologyValues(runs, topology, P99);
    if values != [] {
      ValuesPositive(runs, topology);
      CountNone(values, AtMost(0.0));
      SortSorts(values, AtMost(0.0));
      RankCounts(Sort(values), |values| / 2, AtMost(0.0));
    }
  }

  // A topology improves when both medians exist and the new one is promoted.
  predicate TopologyPromoted(before: seq<RunEvent>, after: seq<RunEvent>, topology: string)
    requires AllUsable(before)
  {
    var a, b := Median(TopologyValues(before, topology, P99)), Median(TopologyValues(after, topology, P99));
    MedianPositive(before, topology);
    a.Some? && b.Some? && Promoted(a.value, b.value)
  }

  // The margin, of the medians that counting singles out.
  ghost predicate MeetsMargin(before: seq<RunEvent>, after: seq<RunEvent>, topology: string) {
    forall a, b :: IsMedian(TopologyValues(before, topology, P99), a) && IsMedian(TopologyValues(after, topology, P99), b)
      ==> (a - b) * 100.0 >= (PROMOTION_MARGIN_PCT - MARGIN_EPSILON) * a
  }

  lemma PromotionIsMargin(before: seq<RunEvent>, after: seq<RunEvent>, topology: string)
    requires AllUsable(before)
    requires TopologyValues(before, topology, P99) != [] && TopologyValues(after, topology, P99) != []
    ensures TopologyPromoted(before, after, topology) <==> MeetsMargin(before, after, topology)
  {
    hide TopologyValues, Median, IsMedian, Promoted;
    var va, vb := TopologyValues(before, topology, P99), TopologyValues(after, topology, P99);
    MedianPositive(before, topology);
    MedianExists(va);
    MedianExists(vb);
    var a, b := Median(va).value, Median(vb).value;
    MedianSplits(va, a);
    MedianSplits(vb, b);
    PromotedExactly(a, b);
    forall x, y | IsMedian(va, x) && IsMedian(vb, y) ensures x == a && y == b {
      MedianSplits(va, x);
      MedianSplits(vb, y);
    }
  }

  // A topology whose every new run falls short of the margin is not promoted.
  lemma ShortfallIsNotPromoted(before: seq<RunEvent>, after: seq<RunEvent>, n: nat, topology: string)
    requires CoveredEvents(before, n) && CoveredEvents(after, n) && topology in TOPOLOGIES && n > 0
    requires FallsShort(Table(before), Table(after), topology, n)
    ensures !TopologyPromoted(before, after, topology)
  {
    hide CoveredEvents, FallsShort, TopologyValues, Sort, Promoted;
    CoveredIsWellFormed(before, n);
    RanksFallShort(before, after, n, topology, n / 2);
    MedianPositive(before, topology);
    var a, b := TopologyValues(before, topology, P99), TopologyValues(after, topology, P99);
    PromotedExactly(Sort(a)[n / 2], Sort(b)[n / 2]);
  }

  // Median domination: if every run of a covered topology is at most 0.99 of the
  // same-numbered old run, its median is too, and the topology is promoted.
  lemma ImprovementPromotes(before: seq<RunEvent>, after: seq<RunEvent>, n: nat, topology: string)
    requires CoveredEvents(before, n) && CoveredEvents(after, n) && topology in TOPOLOGIES && n > 0
    requires Improves(Table(before), Table(after), topology, n)
    ensures TopologyPromoted(before, after, topology)
    ensures var a, b := Median(TopologyValues(before, topology, P99)), Median(TopologyValues(after, topology, P99));
            a.Some? && b.Some? && b.value <= 0.99 * a.value
  {
    hide CoveredEvents, Improves, TopologyValues, Sort, Promoted;
    CoveredIsWellFormed(before, n);
    RanksDominate(before, after, n, topology, n / 2);
    MedianPositive(before, topology);
    var a, b := TopologyValues(before, topology, P99), TopologyValues(after, topology, P99);
    PromotedExactly(Sort(a)[n / 2], Sort(b)[n / 2]);
  }

  // ----- the verdict -----

  datatype Verdict = Unoptimized | PgoOnly | PgoAndBolt

  predicate AllPromoted(before: seq<RunEvent>, after: seq<RunEvent>)
    requires AllUsable(before)
  {
    forall topology <- TOPOLOGIES :: TopologyPromoted(before, after, topology)
  }

  // One topology's evaluation: both medians, then the margin.
  method EvaluateTopology(before: seq<RunEvent>, after: seq<RunEvent>, topology: string)
    returns (promoted: Result<bool, ReceiptError>)
    requires AllUsable(before)
    ensures promoted.Ok? ==> (promoted.value <==> TopologyPromoted(before, after, topology))
    ensures promoted.Ok? <==> TopologyValues(before, topology, P99) != [] && TopologyValues(after, topology, P99) != []
  {
    hide TopologyValues, Sort;
    MedianPositive(before, topology);
    var a := MedianTopologyNum(before, topology, P99);
    var b := MedianTopologyNum(after, topology, P99);
    if a.None? || b.None? { return Err(NoMedian); }
    return Ok(Promoted(a.value, b.value));
  }

  method EvaluateAll(before: seq<RunEvent>, after: seq<RunEvent>) returns (all: Result<bool, ReceiptError>)
    requires AllUsable(before)
    ensures all.Ok? ==> (all.value <==> AllPromoted(before, after))
    ensures (forall t <- TOPOLOGIES :: TopologyValues(before, t, P99) != [] && TopologyValues(after, t, P99) != [])
            ==> all.Ok?
  {
    hide TopologyValues, TopologyPromoted;
    var every := true;
    for t := 0 to |TOPOLOGIES|
      invariant every <==> forall u :: 0 <= u < t ==> TopologyPromoted(before, after, TOPOLOGIES[u])
    {
      var promoted := EvaluateTopology(before, after, TOPOLOGIES[t]);
      if promoted.Err? {
        assert TOPOLOGIES[t] in TOPOLOGIES;
        return Err(promoted.error);
      }
      every := every && promoted.value;
    }
    return Ok(every);
  }

  // What the ceremony requires of its receipts (no BOLT events: not applied) before it evaluates anything.
  predicate Admissible(plain: seq<RunEvent>, pgo: seq<RunEvent>, bolt: seq<RunEvent>, runs: nat) {
    && runs >= MIN_RUNS && CoveredEvents(plain, runs) && CoveredEvents(pgo, runs)
    && (bolt != [] ==> CoveredEvents(bolt, runs))
  }

  ghost predicate FaultIn(receipt: seq<RunEvent>, e: ReceiptError) {
    exists i :: 0 <= i < |receipt| && FirstFault(receipt, i, e)
  }

  predicate CoverageFault(table: map<Key, RunMetrics>, runs: nat, e: ReceiptError) {
    match e
    case TooFewRuns => runs < MIN_RUNS
    case Gap => runs >= MIN_RUNS && !(Expected(runs) <= table.Keys)
    case Extra => runs >= MIN_RUNS && Expected(runs) < table.Keys
    case _ => false
  }

  // Why receipts are turned down: the first faulty event of the first faulty receipt,
  // or if there is none the first receipt without exact coverage.
  ghost predicate Rejected(e: ReceiptError, plain: seq<RunEvent>, pgo: seq<RunEvent>, bolt: seq<RunEvent>, runs: nat) {
    if !WellFormed(plain) then FaultIn(plain, e)
    else if !WellFormed(pgo) then FaultIn(pgo, e)
    else if !WellFormed(bolt) then FaultIn(bolt, e)
    else if runs < MIN_RUNS || Table(plain).Keys != Expected(runs) then CoverageFault(Table(plain), runs, e)
    else if Table(pgo).Keys != Expected(runs) then CoverageFault(Table(pgo), runs, e)
    else bolt != [] && CoverageFault(Table(bolt), runs, e)
  }

  function VerdictOf(plain: seq<RunEvent>, pgo: seq<RunEvent>, bolt: seq<RunEvent>): Verdict
    requires AllUsable(plain) && AllUsable(pgo)
  {
    if !AllPromoted(plain, pgo) then Unoptimized
    else if bolt != [] && AllPromoted(pgo, bolt) then PgoAndBolt
    else PgoOnly
  }

  method EvaluateCeremony(plain: seq<RunEvent>, pgo: seq<RunEvent>, bolt: seq<RunEvent>, runs: nat)
    returns (r: Result<Verdict, ReceiptError>)
    ensures r.Ok? <==> Admissible(plain, pgo, bolt, runs)
    ensures r.Err? ==> Rejected(r.error, plain, pgo, bolt, runs)
    ensures r.Ok? ==> r.value == VerdictOf(plain, pgo, bolt)
    ensures r.Ok? ==> (r.value == Unoptimized <==> exists t :: t in TOPOLOGIES && !MeetsMargin(plain, pgo, t))
    ensures r.Ok? ==> (r.value == PgoAndBolt <==>
                        && (forall t <- TOPOLOGIES :: MeetsMargin(plain, pgo, t))
                        && bolt != [] && forall t <- TOPOLOGIES :: MeetsMargin(pgo, bolt, t))
  {
    hide WellFormed, Table, Expected, AllPromoted, TopologyValues, MeetsMargin;
    var plainMap := ExtractMetricsMap(plain);
    if plainMap.Err? { return Err(plainMap.error); }
    var pgoMap := ExtractMetricsMap(pgo);
    if pgoMap.Err? { return Err(pgoMap.error); }
    NothingIsWellFormed();
    var boltMap := ExtractMetricsMap(bolt);
    if boltMap.Err? { return Err(boltMap.error); }
    var covered := RequireFullCoverage(plainMap.value, runs);
    if covered.Err? { return Err(covered.error); }
    covered := RequireFullCoverage(pgoMap.value, runs);
    if covered.Err? { return Err(covered.error); }
    if bolt != [] {
      covered := RequireFullCoverage(boltMap.value, runs);
      if covered.Err? { return Err(covered.error); }
    }
    ValuesExist(plain, runs);
    ValuesExist(pgo, runs);
    WellFormedIsUsable(plain);
    WellFormedIsUsable(pgo);
    var pgoAll := EvaluateAll(plain, pgo);
    var boltAll := Ok(false);
    if bolt != [] {
      ValuesExist(bolt, runs);
      boltAll := EvaluateAll(pgo, bolt);
    }
    VerdictIsMargins(plain, pgo, bolt, runs);
    if !pgoAll.value { return Ok(Unoptimized); }
    return Ok(if boltAll.value then PgoAndBolt else PgoOnly);
  }

  lemma NothingIsWellFormed()
    ensures WellFormed([])
  {
  }

  lemma WellFormedIsUsable(runs: seq<RunEvent>)
    requires WellFormed(runs)
    ensures AllUsable(runs)
  {
  }

  // A covered receipt has values for every topology.
  lemma ValuesExist(runs: seq<RunEvent>, n: nat)
    requires CoveredEvents(runs, n) && n > 0
    ensures forall t <- TOPOLOGIES :: TopologyValues(runs, t, P99) != []
  {
    hide TopologyValues, CoveredEvents;
    CoveredIsWellFormed(runs, n);
    forall t <- TOPOLOGIES ensures TopologyValues(runs, t, P99) != [] {
      CountsOf(runs, n, t, AtMost(0.0));
    }
  }

  // All topologies are promoted exactly when all meet the margin.
  lemma AllMeetMargin(before: seq<RunEvent>, after: seq<RunEvent>, n: nat)
    requires CoveredEvents(before, n) && CoveredEvents(after, n) && n > 0 && AllUsable(before)
    ensures AllPromoted(before, after) <==> forall t <- TOPOLOGIES :: MeetsMargin(before, after, t)
  {
    hide CoveredEvents, TopologyPromoted, MeetsMargin, TopologyValues;
    ValuesExist(before, n);
    ValuesExist(after, n);
    forall t <- TOPOLOGIES ensures TopologyPromoted(before, after, t) <==> MeetsMargin(before, after, t) {
      PromotionIsMargin(before, after, t);
    }
  }

  // The verdict in terms of the medians alone.
  lemma VerdictIsMargins(plain: seq<RunEvent>, pgo: seq<RunEvent>, bolt: seq<RunEvent>, runs: nat)
    requires Admissible(plain, pgo, bolt, runs) && AllUsable(plain) && AllUsable(pgo)
    ensures VerdictOf(plain, pgo, bolt) == Unoptimized <==> exists t :: t in TOPOLOGIES && !MeetsMargin(plain, pgo, t)
    ensures VerdictOf(plain, pgo, bolt) == PgoAndBolt <==>
              && (forall t <- TOPOLOGIES :: MeetsMargin(plain, pgo, t))
              && bolt != [] && forall t <- TOPOLOGIES :: MeetsMargin(pgo, bolt, t)
  {
    hide CoveredEvents, AllPromoted, MeetsMargin, TopologyValues, AllUsable;
    AllMeetMargin(plain, pgo, runs);
    if bolt != [] { AllMeetMargin(pgo, bolt, runs); }
  }

  // Admissible receipts with one topology whose every PGO run falls short of the
  // margin are judged unoptimized, whatever else they hold.
  lemma UniformShortfallIsUnoptimized(plain: seq<RunEvent>, pgo: seq<RunEvent>, bolt: seq<RunEvent>, runs: nat,
                                      topology: string)
    requires Admissible(plain, pgo, bolt, runs) && topology in TOPOLOGIES
    requires FallsShort(Table(plain), Table(pgo), topology, runs)
    ensures VerdictOf(plain, pgo, bolt) == Unoptimized
  {
    hide CoveredEvents, FallsShort, TopologyPromoted, Table;
    CoveredIsWellFormed(plain, runs);
    CoveredIsWellFormed(pgo, runs);
    ShortfallIsNotPromoted(plain, pgo, runs, topology);
  }

  // Admissible receipts whose every PGO run is at most 0.99 of the plain run are
  // never judged unoptimized; with BOLT runs improving on PGO the same way, both
  // are promoted.
  lemma UniformGainIsPromoted(plain: seq<RunEvent>, pgo: seq<RunEvent>, bolt: seq<RunEvent>, runs: nat)
    requires Admissible(plain, pgo, bolt, runs)
    requires forall t <- TOPOLOGIES :: Improves(Table(plain), Table(pgo), t, runs)
    ensures VerdictOf(plain, pgo, bolt) != Unoptimized
    ensures bolt != [] && (forall t <- TOPOLOGIES :: Improves(Table(pgo), Table(bolt), t, runs)) ==>
              VerdictOf(plain, pgo, bolt) == PgoAndBolt
  {
    hide CoveredEvents, Improves, TopologyPromoted, Table;
    CoveredIsWellFormed(plain, runs);
    CoveredIsWellFormed(pgo, runs);
    forall t <- TOPOLOGIES ensures TopologyPromoted(plain, pgo, t) {
      ImprovementPromotes(plain, pgo, runs, t);
    }
    if bolt != [] {
      CoveredIsWellFormed(bolt, runs);
      forall t <- TOPOLOGIES ensures Improves(Table(pgo), Table(bolt), t, runs) ==> TopologyPromoted(pgo, bolt, t) {
        if Improves(Table(pgo), Table(bolt), t, runs) { ImprovementPromotes(pgo, bolt, runs, t); }
      }
    }
  }
}
