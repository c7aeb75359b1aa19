/**
 * The report endpoint's data shaping: without an API key it answers with a
 * fixed demonstration text; otherwise it condenses the dataset into KPI
 * statistics and the five best scenarios, which are what it forwards to the
 * language model.
 */
module ReportRoute {
  import opened Wrappers
  import opened MockData
  import Seqs
  import StableSort
  import Stats

  /** The report returned when no API key is configured. */
  const MockReport: string :=
    "\n(GROQ key missing — returning mock response)\n\n"
    + "To enable real LLM reports:\n"
    + "1. Get a free API key from https://console.groq.com\n"
    + "2. Add it to .env.local:\n"
    + "   GROQ_API_KEY=your_key_here\n"
    + "3. Restart the dev server.\n\n"
    + "(Mocked AI report for demo purposes.)\n\n"
    + "Summary:\n"
    + "The system shows strong temperature-driven influence on heater outlet performance.\n"
    + "High KPI scenarios typically correlate with elevated temperature on HEX-100 and Air equipment.\n"
    + "Focus on top impact variables to improve operational efficiency."

  /** How many scenarios the report lists. */
  const TopCount: nat := 5

  datatype KpiStats = KpiStats(count: nat, min: real, max: real, avg: real)

  /** The `{scenario, kpi, kpi_value}` projection of an entry. */
  datatype TopScenario = TopScenario(scenario: string, kpi: string, kpiValue: Option<real>)

  /** The compacted input the endpoint builds for the model (the fields this model covers). */
  datatype Compact = Compact(
    mainSummary: Option<string>,
    topSummary: Option<string>,
    impactSummary: Option<string>,
    kpiStats: Option<KpiStats>,
    topScenarios: seq<TopScenario>)

  /** What the endpoint does with a request. */
  datatype Outcome =
    | MockAnswer(report: string)  // no API key: the fixed text
    | Forward(compact: Compact)   // the data sent on to the model
    | Crash                       // no dataset: reading its summary fields throws

  /** The scenario has a numeric KPI value. */
  predicate HasKpi(e: Entry) {
    e.kpiValue.Some?
  }

  /**
   * The KPI values that are numbers, in scenario order: one value for each
   * scenario that has one, so a value shared by several scenarios occurs as
   * often as they do.
   */
  function KpiValues(sims: seq<Entry>): (r: seq<real>)
    ensures |r| <= |sims|
    ensures forall i :: 0 <= i < |sims| && sims[i].kpiValue.Some? ==> sims[i].kpiValue.value in r
    ensures forall j :: 0 <= j < |r| ==> exists i :: 0 <= i < |sims| && sims[i].kpiValue == Some(r[j])
    ensures r == [] <==> forall i :: 0 <= i < |sims| ==> sims[i].kpiValue.None?
  {
    if sims == [] then []
    else
      var rest := KpiValues(sims[1..]);
      assert forall i :: 1 <= i < |sims| ==> sims[i] == sims[1..][i - 1];
      match sims[0].kpiValue
      case None => rest
      case Some(v) => [v] + rest
  }

  /** `values` holds the KPI values of `numeric`, index by index. */
  ghost predicate Aligned(values: seq<real>, numeric: seq<Entry>) {
    |values| == |numeric| && forall j :: 0 <= j < |values| ==> numeric[j].kpiValue == Some(values[j])
  }

  lemma AlignedCons(v: real, values: seq<real>, e: Entry, numeric: seq<Entry>)
    requires Aligned(values, numeric) && e.kpiValue == Some(v)
    ensures Aligned([v] + values, [e] + numeric)
  {
    var vs, ns := [v] + values, [e] + numeric;
    forall j | 1 <= j < |vs| ensures ns[j].kpiValue == Some(vs[j]) {
      assert vs[j] == values[j - 1] && ns[j] == numeric[j - 1];
    }
  }

  /**
   * The values line up one for one with the scenarios that have a numeric KPI
   * value, so each value counts once per scenario carrying it.
   */
  lemma {:induction false} KpiValuesAlign(sims: seq<Entry>)
    ensures |KpiValues(sims)| == |Seqs.Filter(sims, HasKpi)|
    ensures forall j :: 0 <= j < |KpiValues(sims)| ==> Seqs.Filter(sims, HasKpi)[j].kpiValue == Some(KpiValues(sims)[j])
  {
    if sims != [] {
      KpiValuesAlign(sims[1..]);
      var rest, numericRest := KpiValues(sims[1..]), Seqs.Filter(sims[1..], HasKpi);
      assert Aligned(rest, numericRest);
      var numeric := Seqs.Filter(sims, HasKpi);
      assert numeric == (if HasKpi(sims[0]) then [sims[0]] else []) + numericRest;
      if HasKpi(sims[0]) {
        assert KpiValues(sims) == [sims[0].kpiValue.value] + rest;
        AlignedCons(sims[0].kpiValue.value, rest, sims[0], numericRest);
        assert Aligned(KpiValues(sims), numeric);
      } else {
        assert KpiValues(sims) == rest && numeric == numericRest;
      }
    }
  }

  /** `kpiStats`: null when no KPI value is a number. */
  function StatsOf(sims: seq<Entry>): Option<KpiStats> {
    var values := KpiValues(sims);
    if |values| > 0 then
      Some(KpiStats(|sims|, Stats.Min(values), Stats.Max(values), Stats.Mean(values)))
    else None
  }

  /** The statistics are null exactly when no scenario has a numeric KPI value. */
  lemma StatsAbsentIff(sims: seq<Entry>)
    ensures StatsOf(sims).None? <==> forall i :: 0 <= i < |sims| ==> sims[i].kpiValue.None?
  {
  }

  /**
   * When present, min and max are among the numeric KPI values and bound all of
   * them, the average (their sum over their number) lies between min and max,
   * and the count is the number of all scenarios, numeric or not.
   */
  lemma StatsPresentSpec(sims: seq<Entry>)
    requires StatsOf(sims).Some?
    ensures StatsOf(sims).value.count == |sims|
    ensures StatsOf(sims).value.min in KpiValues(sims) && StatsOf(sims).value.max in KpiValues(sims)
    ensures forall j :: 0 <= j < |KpiValues(sims)| ==>
              StatsOf(sims).value.min <= KpiValues(sims)[j] <= StatsOf(sims).value.max
    ensures StatsOf(sims).value.min <= StatsOf(sims).value.avg <= StatsOf(sims).value.max
    ensures StatsOf(sims).value.avg == Stats.Sum(KpiValues(sims)) / |KpiValues(sims)| as real
  {
    var values := KpiValues(sims);
    Stats.MeanBetween(values);
  }

  /** The key `topScenarios` sorts on: the KPI value, 0 when missing. */
  function KpiOrZero(e: Entry): real {
    e.kpiValue.GetOr(0.0)
  }

  /** The ascending sort key that puts larger KPI values first. */
  function RankKey(e: Entry): real {
    -KpiOrZero(e)
  }

  /** A sorted copy of the scenarios, largest KPI first, ties in input order. */
  function Ranked(sims: seq<Entry>): (r: seq<Entry>)
    ensures |r| == |sims|
  {
    StableSort.SortFacts(sims, RankKey);
    StableSort.Sort(sims, RankKey)
  }

  function Project(e: Entry): TopScenario {
    TopScenario(e.scenario, e.kpi, e.kpiValue)
  }

  /** `topScenarios`: the projections of the first five ranked scenarios. */
  function TopScenarios(sims: seq<Entry>): seq<TopScenario> {
    var ranked := Ranked(sims);
    var n := if |ranked| < TopCount then |ranked| else TopCount;
    seq(n, i requires 0 <= i < n => Project(ranked[i]))
  }

  /**
   * The ranking is a permutation of the scenarios by non-increasing KPI (missing
   * as 0), ties in input order; the top list holds min(5, n) entries, each the
   * projection of the scenario ranked at its place; every scenario left out
   * ranks no higher than any scenario kept.
   */
  lemma TopScenariosSpec(sims: seq<Entry>)
    ensures multiset(Ranked(sims)) == multiset(sims)
    ensures forall k :: StableSort.WithKey(Ranked(sims), RankKey, k) == StableSort.WithKey(sims, RankKey, k)
    ensures |TopScenarios(sims)| == if |sims| < TopCount then |sims| else TopCount
    ensures forall i :: 0 <= i < |TopScenarios(sims)| ==>
              TopScenarios(sims)[i] == Project(Ranked(sims)[i]) && Ranked(sims)[i] in sims
    ensures forall i, j :: 0 <= i < j < |sims| ==> KpiOrZero(Ranked(sims)[i]) >= KpiOrZero(Ranked(sims)[j])
    ensures forall i, j :: 0 <= i < |TopScenarios(sims)| <= j < |sims| ==>
              KpiOrZero(Ranked(sims)[j]) <= KpiOrZero(Ranked(sims)[i])
  {
    var ranked := Ranked(sims);
    StableSort.SortFacts(sims, RankKey);
    forall i | 0 <= i < |ranked| ensures ranked[i] in sims {
      assert ranked[i] in multiset(sims);
    }
    forall i, j | 0 <= i < j < |sims| ensures KpiOrZero(ranked[i]) >= KpiOrZero(ranked[j]) {
      assert RankKey(ranked[i]) <= RankKey(ranked[j]);
    }
  }

  /** The endpoint, up to the model call. */
  function Handle(apiKey: Option<string>, dataset: Option<Dataset>): (r: Outcome)
    ensures !Truthy(apiKey) ==> r == MockAnswer(MockReport)
    ensures Truthy(apiKey) && dataset.None? ==> r.Crash?
    ensures Truthy(apiKey) && dataset.Some? ==>
      r.Forward?
      && r.compact.kpiStats == StatsOf(SimulatedData(dataset))
      && r.compact.topScenarios == TopScenarios(SimulatedData(dataset))
  {
    if !Truthy(apiKey) then MockAnswer(MockReport)
    else
      var sims := SimulatedData(dataset);
      var stats := StatsOf(sims);
      var top := TopScenarios(sims);
      match dataset
      case None => Crash
      case Some(d) => Forward(Compact(d.mainSummary, d.topSummary, d.impactSummary, stats, top))
  }
}
