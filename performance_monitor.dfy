/**
 * The performance monitor: an append-only metric log with interaction and
 * error counters, a summary that groups the log by key, and a feedback
 * report that applies fixed thresholds to that summary.  Metric values are
 * reals; the session clock is not modelled.
 */
module PerformanceMonitoring {
  import opened DataModels

  const HighErrorRate := "High error rate detected: Review module implementations"
  const LowIntentConfidence := "Low intent recognition confidence: Consider retraining NLU model"
  const LowSttConfidence := "Low STT confidence: Optimize speech-to-text settings"
  const PerformingWell := "System performance is good. Continue monitoring."

  const IntentConfidenceKey := "intent_recognizer.confidence"
  const SttConfidenceKey := "stt.confidence"

  /** How many of the latest entries a summary shows. */
  const RecentWindow := 10

  /** The grouping key of an entry: component and metric name joined by a dot. */
  function Key(m: PerformanceMetric): (k: string)
    ensures |k| == |m.component| + 1 + |m.metricName|
    ensures k[..|m.component|] == m.component && k[|m.component|] == '.' && k[|m.component| + 1..] == m.metricName
  {
    m.component + "." + m.metricName
  }

  /** The keys that occur in a log. */
  function KeysOf(ms: seq<PerformanceMetric>): set<string> {
    if ms == [] then {} else KeysOf(ms[..|ms| - 1]) + {Key(ms[|ms| - 1])}
  }

  /** A key occurs in a log exactly when some entry has it. */
  lemma {:induction false} KeysOfMembers(ms: seq<PerformanceMetric>, key: string)
    ensures key in KeysOf(ms) <==> exists j :: 0 <= j < |ms| && Key(ms[j]) == key
  {
    if ms != [] {
      var prefix := ms[..|ms| - 1];
      KeysOfMembers(prefix, key);
      assert forall j :: 0 <= j < |prefix| ==> prefix[j] == ms[j];
    }
  }

  /** The values of the entries whose key is `key`, in insertion order. */
  function ValuesFor(ms: seq<PerformanceMetric>, key: string): (vs: seq<real>)
    ensures |vs| <= |ms|
    ensures |vs| > 0 <==> key in KeysOf(ms)
  {
    if ms == [] then []
    else
      var last := ms[|ms| - 1];
      ValuesFor(ms[..|ms| - 1], key) + (if Key(last) == key then [last.value] else [])
  }

  /** Extending a log by its next entry extends that entry's group and no other. */
  lemma GroupStep(ms: seq<PerformanceMetric>, i: nat)
    requires i < |ms|
    ensures var before, key := Grouped(ms[..i]), Key(ms[i]);
      Grouped(ms[..i + 1]) == before[key := (if key in before then before[key] else []) + [ms[i].value]]
  {
    var before, key := Grouped(ms[..i]), Key(ms[i]);
    var after := Grouped(ms[..i + 1]);
    var expected := before[key := (if key in before then before[key] else []) + [ms[i].value]];
    assert ms[..i + 1][..i] == ms[..i];
    assert after.Keys == expected.Keys;
    forall k | k in after
      ensures after[k] == expected[k]
    {
      assert after[k] == ValuesFor(ms[..i], k) + (if key == k then [ms[i].value] else []);
    }
  }

  /** The values of the entries with exactly this component and metric name, in insertion order. */
  function History(ms: seq<PerformanceMetric>, component: string, metricName: string): (vs: seq<real>)
    ensures |vs| <= |ms|
  {
    if ms == [] then []
    else
      var last := ms[|ms| - 1];
      History(ms[..|ms| - 1], component, metricName)
        + (if last.component == component && last.metricName == metricName then [last.value] else [])
  }

  /** A one-entry log has that entry's value in its own pair's history and nothing in any other. */
  lemma HistorySingle(m: PerformanceMetric, component: string, metricName: string)
    ensures History([m], component, metricName) ==
      if m.component == component && m.metricName == metricName then [m.value] else []
  {
    assert [m][..0] == [];
  }

  /** The history of a concatenation is the concatenation of the histories, in that order. */
  lemma {:induction false} HistoryConcat(a: seq<PerformanceMetric>, b: seq<PerformanceMetric>, component: string, metricName: string)
    ensures History(a + b, component, metricName) == History(a, component, metricName) + History(b, component, metricName)
  {
    if b == [] {
      assert a + b == a;
    } else {
      var front := b[..|b| - 1];
      assert (a + b)[..|a + b| - 1] == a + front;
      HistoryConcat(a, front, component, metricName);
    }
  }

  /** Splitting a log anywhere splits its history at the matching place. */
  lemma HistorySplits(ms: seq<PerformanceMetric>, component: string, metricName: string)
    ensures forall k :: 0 <= k <= |ms| ==>
      History(ms, component, metricName) == History(ms[..k], component, metricName) + History(ms[k..], component, metricName)
  {
    forall k | 0 <= k <= |ms|
      ensures History(ms, component, metricName) == History(ms[..k], component, metricName) + History(ms[k..], component, metricName)
    {
      assert ms[..k] + ms[k..] == ms;
      HistoryConcat(ms[..k], ms[k..], component, metricName);
    }
  }

  function Sum(vs: seq<real>): real {
    if vs == [] then 0.0 else vs[0] + Sum(vs[1..])
  }

  function Min(vs: seq<real>): (m: real)
    requires |vs| > 0
    ensures m in vs
    ensures forall i :: 0 <= i < |vs| ==> m <= vs[i]
  {
    if |vs| == 1 then vs[0]
    else
      var rest := Min(vs[1..]);
      if vs[0] <= rest then vs[0] else rest
  }

  function Max(vs: seq<real>): (m: real)
    requires |vs| > 0
    ensures m in vs
    ensures forall i :: 0 <= i < |vs| ==> vs[i] <= m
  {
    if |vs| == 1 then vs[0]
    else
      var rest := Max(vs[1..]);
      if rest <= vs[0] then vs[0] else rest
  }

  /** The statistics of one group. */
  datatype Stats = Stats(count: nat, average: real, min: real, max: real, total: real)

  function StatsOf(values: seq<real>): (st: Stats)
    requires |values| > 0
    ensures st.count == |values| && st.total == Sum(values)
    ensures st.min in values && st.max in values
    ensures forall i :: 0 <= i < |values| ==> st.min <= values[i] <= st.max
    ensures st.min <= st.average <= st.max
  {
    AverageWithinRange(values);
    Stats(|values|, Sum(values) / |values| as real, Min(values), Max(values), Sum(values))
  }

  /** The log grouped by key: each key with its values in insertion order. */
  function Grouped(ms: seq<PerformanceMetric>): (groups: map<string, seq<real>>)
    ensures forall k :: k in groups ==> |groups[k]| > 0
  {
    map k | k in KeysOf(ms) :: ValuesFor(ms, k)
  }

  /** The statistics of every group. */
  function StatsMap(groups: map<string, seq<real>>): map<string, Stats>
    requires forall k :: k in groups ==> |groups[k]| > 0
  {
    map k | k in groups :: StatsOf(groups[k])
  }

  /** Per-key statistics of a log. */
  function Statistics(ms: seq<PerformanceMetric>): map<string, Stats> {
    StatsMap(Grouped(ms))
  }

  /** Errors per interaction, and 0 when there was no interaction. */
  function ErrorRate(interactions: nat, errors: nat): (rate: real)
    ensures interactions == 0 ==> rate == 0.0
    ensures interactions > 0 ==> rate * interactions as real == errors as real
    ensures errors <= interactions ==> 0.0 <= rate <= 1.0
  {
    if interactions > 0 then errors as real / interactions as real else 0.0
  }

  /** The trailing window of the log: its last `RecentWindow` entries, in order. */
  function Recent(ms: seq<PerformanceMetric>): (r: seq<PerformanceMetric>)
    ensures |r| == if |ms| < RecentWindow then |ms| else RecentWindow
    ensures r == ms[|ms| - |r|..]
  {
    if |ms| <= RecentWindow then ms else ms[|ms| - RecentWindow..]
  }

  /**
   * A metrics summary.  With an empty log the source returns a message and
   * the two counters only: there is no error rate and no statistics.
   */
  datatype Summary =
    | NoMetrics(interactionCount: nat, errorCount: nat)
    | Report(
        totalMetrics: nat,
        totalInteractions: nat,
        totalErrors: nat,
        errorRate: real,
        statistics: map<string, Stats>,
        recentMetrics: seq<PerformanceMetric>)

  function SummaryOf(ms: seq<PerformanceMetric>, interactions: nat, errors: nat): (s: Summary)
    ensures s.NoMetrics? <==> ms == []
    ensures s.Report? ==> s.totalMetrics == |ms| && s.statistics.Keys == KeysOf(ms)
  {
    if ms == [] then NoMetrics(interactions, errors)
    else Report(|ms|, interactions, errors, ErrorRate(interactions, errors), Statistics(ms), Recent(ms))
  }

  lemma {:induction false} SumBounds(vs: seq<real>, lo: real, hi: real)
    requires forall i :: 0 <= i < |vs| ==> lo <= vs[i] <= hi
    ensures |vs| as real * lo <= Sum(vs) <= |vs| as real * hi
  {
    if vs != [] {
      SumBounds(vs[1..], lo, hi);
      assert |vs| as real * lo == (|vs| - 1) as real * lo + lo;
      assert |vs| as real * hi == (|vs| - 1) as real * hi + hi;
    }
  }

  /** The average of a group lies between its minimum and its maximum. */
  lemma AverageWithinRange(vs: seq<real>)
    requires |vs| > 0
    ensures Min(vs) <= Sum(vs) / |vs| as real <= Max(vs)
  {
    AverageBetween(vs, Min(vs), Max(vs));
  }

  lemma AverageBetween(vs: seq<real>, lo: real, hi: real)
    requires |vs| > 0
    requires forall i :: 0 <= i < |vs| ==> lo <= vs[i] <= hi
    ensures lo <= Sum(vs) / |vs| as real <= hi
  {
    SumBounds(vs, lo, hi);
    QuotientBounds(Sum(vs), |vs| as real, lo, hi);
  }

  lemma QuotientBounds(total: real, n: real, lo: real, hi: real)
    requires n > 0.0 && n * lo <= total <= n * hi
    ensures lo <= total / n <= hi
  {
    var q := total / n;
    assert q * n == total;
    assert (q - lo) * n == total - n * lo;
    assert (hi - q) * n == n * hi - total;
  }

  /**
   * What the summary's statistics mean: a key is present exactly when some
   * entry has it, and its count, total, average, minimum and maximum are
   * those of the values recorded under it.
   */
  lemma SummaryStatistics(ms: seq<PerformanceMetric>, interactions: nat, errors: nat, key: string)
    requires ms != []
    ensures var s := SummaryOf(ms, interactions, errors);
      && (key in s.statistics <==> exists j :: 0 <= j < |ms| && Key(ms[j]) == key)
      && (key in s.statistics ==>
            var st := s.statistics[key];
            var vs := ValuesFor(ms, key);
            && st.count == |vs| > 0
            && st.total == Sum(vs)
            && st.average == st.total / st.count as real
            && st.min <= st.average <= st.max
            && st.min in vs && st.max in vs
            && forall i :: 0 <= i < |vs| ==> st.min <= vs[i] <= st.max)
  {
    KeysOfMembers(ms, key);
    if key in KeysOf(ms) {
      AverageWithinRange(ValuesFor(ms, key));
    }
  }

  /**
   * The history of a (component, metric name) pair is drawn from the
   * summary group of its joined key, and is all of it unless another pair
   * joins to the same key.
   */
  lemma {:induction false} HistoryWithinGroup(ms: seq<PerformanceMetric>, component: string, metricName: string)
    ensures |History(ms, component, metricName)| <= |ValuesFor(ms, component + "." + metricName)|
    ensures (forall j :: 0 <= j < |ms| && Key(ms[j]) == component + "." + metricName ==>
               ms[j].component == component && ms[j].metricName == metricName)
            ==> History(ms, component, metricName) == ValuesFor(ms, component + "." + metricName)
  {
    if ms != [] {
      var prefix := ms[..|ms| - 1];
      assert forall j :: 0 <= j < |prefix| ==> prefix[j] == ms[j];
      HistoryWithinGroup(prefix, component, metricName);
    }
  }

  /** A value is in a pair's history exactly when some entry of that pair recorded it. */
  lemma {:induction false} HistoryMembers(ms: seq<PerformanceMetric>, component: string, metricName: string)
    ensures forall v :: v in History(ms, component, metricName) <==>
      exists j :: 0 <= j < |ms| && ms[j].component == component && ms[j].metricName == metricName && ms[j].value == v
  {
    if ms != [] {
      var prefix := ms[..|ms| - 1];
      assert forall j :: 0 <= j < |prefix| ==> prefix[j] == ms[j];
      HistoryMembers(prefix, component, metricName);
    }
  }

  /** Two different pairs can join to the same key and share one group. */
  lemma KeyCollision()
    ensures var ms := [PerformanceMetric("a.b", "c", 1.0), PerformanceMetric("a", "b.c", 2.0)];
      && ValuesFor(ms, "a.b.c") == [1.0, 2.0]
      && History(ms, "a.b", "c") == [1.0]
  {
    var ms := [PerformanceMetric("a.b", "c", 1.0), PerformanceMetric("a", "b.c", 2.0)];
    assert ms[..1] == [ms[0]] && ms[..1][..0] == [];
  }

  /** `summary.get("error_rate", 0)`. */
  function ReportedErrorRate(s: Summary): (rate: real)
    ensures s.NoMetrics? ==> rate == 0.0
    ensures (s.Report? && s.totalErrors <= s.totalInteractions
             && s.errorRate == ErrorRate(s.totalInteractions, s.totalErrors)) ==> 0.0 <= rate <= 1.0
  {
    if s.Report? then s.errorRate else 0.0
  }

  /** The average recorded under a key, if the summary has statistics for it. */
  function AverageOf(s: Summary, key: string): Option<real> {
    if s.Report? && key in s.statistics then Some(s.statistics[key].average) else None
  }

  predicate FlagsHighErrorRate(s: Summary) {
    ReportedErrorRate(s) > 0.1
  }

  predicate FlagsLowIntentConfidence(s: Summary) {
    var average := AverageOf(s, IntentConfidenceKey);
    average.Some? && average.value < 0.7
  }

  predicate FlagsLowSttConfidence(s: Summary) {
    var average := AverageOf(s, SttConfidenceKey);
    average.Some? && average.value < 0.8
  }

  /** The position of a recommendation in the report's fixed order. */
  function Rank(recommendation: string): nat {
    if recommendation == HighErrorRate then 0
    else if recommendation == LowIntentConfidence then 1
    else if recommendation == LowSttConfidence then 2
    else 3
  }

  /**
   * The feedback policy: one recommendation per tripped threshold, in the
   * fixed order error rate, intent confidence, STT confidence; the single
   * "performing well" message exactly when none tripped.
   */
  function Recommendations(s: Summary): (recs: seq<string>)
    ensures HighErrorRate in recs <==> FlagsHighErrorRate(s)
    ensures LowIntentConfidence in recs <==> FlagsLowIntentConfidence(s)
    ensures LowSttConfidence in recs <==> FlagsLowSttConfidence(s)
    ensures recs == [PerformingWell] <==>
      !FlagsHighErrorRate(s) && !FlagsLowIntentConfidence(s) && !FlagsLowSttConfidence(s)
    ensures PerformingWell in recs ==> recs == [PerformingWell]
    ensures forall i, j :: 0 <= i < j < |recs| ==> Rank(recs[i]) < Rank(recs[j])
    ensures forall r :: r in recs ==> r in {HighErrorRate, LowIntentConfidence, LowSttConfidence, PerformingWell}
  {
    var flagged := Flagged(s);
    if flagged == [] then [PerformingWell] else flagged
  }

  /** The recommendations of the tripped thresholds, in report order. */
  function Flagged(s: Summary): seq<string> {
    (if FlagsHighErrorRate(s) then [HighErrorRate] else [])
    + (if FlagsLowIntentConfidence(s) then [LowIntentConfidence] else [])
    + (if FlagsLowSttConfidence(s) then [LowSttConfidence] else [])
  }

  /**
   * With an empty log the summary has no error rate, so feedback never
   * flags the error rate, however many interactions failed.
   */
  lemma NoMetricsNeverFlagsErrorRate(interactions: nat, errors: nat)
    ensures HighErrorRate !in Recommendations(SummaryOf([], interactions, errors))
    ensures Recommendations(SummaryOf([], interactions, errors)) == [PerformingWell]
  {
  }

  /**
   * The error-rate threshold fires exactly when the log is non-empty and
   * the rate exceeds 0.1: with no metrics it never fires.
   */
  lemma HighErrorRateFlag(ms: seq<PerformanceMetric>, interactions: nat, errors: nat)
    ensures FlagsHighErrorRate(SummaryOf(ms, interactions, errors)) <==> ms != [] && ErrorRate(interactions, errors) > 0.1
  {
  }

  /**
   * A session whose error rate is at most 0.1 and which recorded no
   * confidence metric gets exactly the "performing well" advice.
   */
  lemma QuietSessionAdvice(ms: seq<PerformanceMetric>, interactions: nat, errors: nat)
    requires ErrorRate(interactions, errors) <= 0.1
    requires forall j :: 0 <= j < |ms| ==> Key(ms[j]) != IntentConfidenceKey && Key(ms[j]) != SttConfidenceKey
    ensures Recommendations(SummaryOf(ms, interactions, errors)) == [PerformingWell]
  {
    KeysOfMembers(ms, IntentConfidenceKey);
    KeysOfMembers(ms, SttConfidenceKey);
  }

  /** The feedback report, without its timestamp and session duration. */
  datatype FeedbackReport = FeedbackReport(
    totalInteractions: Option<nat>,
    errorRate: Option<real>,
    performanceData: Summary,
    recommendations: seq<string>)

  /** The grouping loop of a summary: the values of each key, in insertion order. */
  method GroupByKey(ms: seq<PerformanceMetric>) returns (groups: map<string, seq<real>>)
    ensures groups == Grouped(ms)
  {
    groups := map[];
    var i := 0;
    while i < |ms|
      invariant i <= |ms|
      invariant groups == Grouped(ms[..i])
    {
      var metric := ms[i];
      var key := metric.component + "." + metric.metricName;
      var values := if key in groups then groups[key] else [];
      groups := groups[key := values + [metric.value]];
      GroupStep(ms, i);
      i := i + 1;
    }
    assert ms[..i] == ms;
  }

  /** The statistics loop of a summary: one entry per group of `groups`. */
  method StatisticsOf(groups: map<string, seq<real>>) returns (statistics: map<string, Stats>)
    requires forall k :: k in groups ==> |groups[k]| > 0
    ensures statistics == StatsMap(groups)
  {
    statistics := map[];
    var pending := groups.Keys;
    while pending != {}
      invariant pending <= groups.Keys
      invariant statistics.Keys == groups.Keys - pending
      invariant forall k :: k in statistics ==> |groups[k]| > 0 && statistics[k] == StatsOf(groups[k])
      decreases pending
    {
      var key :| key in pending;
      var values := groups[key];
      statistics := statistics[key := StatsOf(values)];
      pending := pending - {key};
    }
  }

  /** Builds the recommendation list of a summary, one threshold at a time. */
  method Advise(summary: Summary) returns (recommendations: seq<string>)
    ensures recommendations == Recommendations(summary)
  {
    recommendations := [];
    if ReportedErrorRate(summary) > 0.1 {
      recommendations := recommendations + [HighErrorRate];
    }
    var statistics := if summary.Report? then summary.statistics else map[];
    if IntentConfidenceKey in statistics {
      var averageConfidence := statistics[IntentConfidenceKey].average;
      if averageConfidence < 0.7 {
        recommendations := recommendations + [LowIntentConfidence];
      }
    }
    if SttConfidenceKey in statistics {
      var averageSttConfidence := statistics[SttConfidenceKey].average;
      if averageSttConfidence < 0.8 {
        recommendations := recommendations + [LowSttConfidence];
      }
    }
    if recommendations == [] {
      recommendations := recommendations + [PerformingWell];
    }
  }

  class PerformanceMonitor {
    var metrics: seq<PerformanceMetric>
    var interactionCount: nat
    var errorCount: nat

    /** Every error is a failed interaction. */
    ghost predicate Valid()
      reads this
    {
      errorCount <= interactionCount
    }

    constructor ()
      ensures Valid()
      ensures metrics == [] && interactionCount == 0 && errorCount == 0
    {
      metrics := [];
      interactionCount := 0;
      errorCount := 0;
    }

    /** Appends one entry at the end of the log; no range check on the value. */
    method RecordMetric(component: string, metricName: string, value: real)
      modifies this`metrics
      ensures metrics == old(metrics) + [PerformanceMetric(component, metricName, value)]
      ensures forall c, n ::
        GetMetricHistory(c, n) == old(GetMetricHistory(c, n)) + (if c == component && n == metricName then [value] else [])
    {
      metrics := metrics + [PerformanceMetric(component, metricName, value)];
      assert metrics[..|metrics| - 1] == old(metrics);
    }

    /** Counts one interaction, and one error when it failed. */
    method RecordInteraction(success: bool)
      modifies this`interactionCount, this`errorCount
      ensures old(Valid()) ==> Valid()
      ensures interactionCount == old(interactionCount) + 1
      ensures errorCount == old(errorCount) + (if success then 0 else 1)
    {
      interactionCount := interactionCount + 1;
      if !success {
        errorCount := errorCount + 1;
      }
    }

    /** Groups the log by key and computes each group's statistics. */
    method GetMetricsSummary() returns (s: Summary)
      ensures s == SummaryOf(metrics, interactionCount, errorCount)
      ensures Valid() && s.Report? ==> 0.0 <= s.errorRate <= 1.0
    {
      var ms := metrics;
      if ms == [] {
        return NoMetrics(interactionCount, errorCount);
      }
      var groups := GroupByKey(ms);
      var statistics := StatisticsOf(groups);
      var rate := if interactionCount > 0 then errorCount as real / interactionCount as real else 0.0;
      var recent := if |ms| <= RecentWindow then ms else ms[|ms| - RecentWindow..];
      assert statistics == Statistics(ms);
      assert rate == ErrorRate(interactionCount, errorCount);
      assert recent == Recent(ms);
      s := Report(|ms|, interactionCount, errorCount, rate, statistics, recent);
    }

    /** Applies the feedback thresholds to a fresh summary. */
    method GetFeedbackReport() returns (f: FeedbackReport)
      ensures f.performanceData == SummaryOf(metrics, interactionCount, errorCount)
      ensures f.recommendations == Recommendations(f.performanceData)
      ensures f.totalInteractions == if metrics == [] then None else Some(interactionCount)
      ensures f.errorRate == if metrics == [] then None else Some(ErrorRate(interactionCount, errorCount))
    {
      var summary := GetMetricsSummary();
      var recommendations := Advise(summary);
      f := FeedbackReport(
        if summary.Report? then Some(summary.totalInteractions) else None,
        if summary.Report? then Some(summary.errorRate) else None,
        summary,
        recommendations);
    }

    /** Empties the log and zeroes both counters. */
    method ResetSession()
      modifies this`metrics, this`interactionCount, this`errorCount
      ensures Valid()
      ensures metrics == [] && interactionCount == 0 && errorCount == 0
    {
      metrics := [];
      interactionCount := 0;
      errorCount := 0;
    }

    /** A copy of the whole log, in insertion order. */
    function ExportMetrics(): (r: seq<PerformanceMetric>)
      reads this
      ensures |r| == |metrics| && forall i :: 0 <= i < |r| ==> r[i] == metrics[i]
    {
      metrics
    }

    /** The recorded values of one (component, metric name) pair, oldest first. */
    function GetMetricHistory(component: string, metricName: string): (r: seq<real>)
      reads this
      ensures forall v :: v in r <==>
        exists j :: 0 <= j < |metrics| && metrics[j].component == component && metrics[j].metricName == metricName && metrics[j].value == v
      ensures |r| <= |ValuesFor(metrics, component + "." + metricName)|
      ensures forall k :: 0 <= k <= |metrics| ==>
        r == History(metrics[..k], component, metricName) + History(metrics[k..], component, metricName)
    {
      HistoryMembers(metrics, component, metricName);
      HistoryWithinGroup(metrics, component, metricName);
      HistorySplits(metrics, component, metricName);
      History(metrics, component, metricName)
    }
  }
}
