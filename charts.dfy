/**
 * The charts panel's data shaping: the KPI line series, the fuel-temperature
 * scatter points, and the per-equipment average temperatures of the bar chart,
 * plus the gate that decides whether charts are shown at all.
 */
module Charts {
  import opened Wrappers
  import opened MockData
  import Seqs
  import Stats

  datatype Point = Point(x: real, y: Option<real>)

  /** A running sum and count. */
  datatype Acc = Acc(sum: real, count: nat)

  datatype ChartsData = ChartsData(
    labels: seq<string>,
    kpiValues: seq<Option<real>>,
    scatter: seq<Point>,
    barLabels: seq<string>,
    barValues: seq<real>)

  datatype View = Loading | Message(text: string) | Rendered(charts: ChartsData)

  const NoDataMessage: string := "No simulation data available for charts."

  const FuelEquipment: string := "Fuel"
  const FuelVariable: string := "Fuel - temperature"
  const AirEquipment: string := "Air"
  const AirVariable: string := "temperature"
  const HexEquipment: string := "HEX-100"
  const HexVariable: string := "cold_fluid_temperature"

  // ------------------------------------------------------------ line series

  /** `sims.map((s) => s.scenario)`. */
  function ScenarioLabels(sims: seq<Entry>): (r: seq<string>)
    ensures |r| == |sims|
    ensures forall i :: 0 <= i < |sims| ==> r[i] == sims[i].scenario
  {
    if sims == [] then [] else [sims[0].scenario] + ScenarioLabels(sims[1..])
  }

  /** `sims.map((s) => s.kpi_value)`. */
  function KpiSeries(sims: seq<Entry>): (r: seq<Option<real>>)
    ensures |r| == |sims|
    ensures forall i :: 0 <= i < |sims| ==> r[i] == sims[i].kpiValue
  {
    if sims == [] then [] else [sims[0].kpiValue] + KpiSeries(sims[1..])
  }

  // ---------------------------------------------------------- scatter chart

  function EquipmentNamed(name: string): Equipment -> bool {
    (eq: Equipment) => eq.equipment == name
  }

  function VariableNamed(name: string): Variable -> bool {
    (v: Variable) => v.name == name
  }

  /** The value of the first variable called `name`, if any. */
  function FirstValue(vars: seq<Variable>, name: string): (r: Option<real>)
    ensures r.None? <==> forall j :: 0 <= j < |vars| ==> vars[j].name != name
    ensures forall j :: Seqs.FirstIndex(vars, VariableNamed(name), j) ==> r == Some(vars[j].value)
  {
    match Seqs.Find(vars, VariableNamed(name))
    case None => None
    case Some(v) => Some(v.value)
  }

  /**
   * The fuel temperature of a scenario: the first "Fuel - temperature" variable
   * of its FIRST "Fuel" equipment; later "Fuel" entries are not looked at.
   */
  function FuelTemperature(s: Entry): (r: Option<real>)
    ensures forall i :: Seqs.FirstIndex(s.equipment, EquipmentNamed(FuelEquipment), i) ==>
              r == FirstValue(s.equipment[i].variables, FuelVariable)
    ensures (forall i :: 0 <= i < |s.equipment| ==> s.equipment[i].equipment != FuelEquipment) ==> r.None?
  {
    match Seqs.Find(s.equipment, EquipmentNamed(FuelEquipment))
    case None => None
    case Some(fuel) => FirstValue(fuel.variables, FuelVariable)
  }

  /** The points one scenario contributes: one when it has a fuel temperature, else none. */
  function PointsOf(s: Entry): seq<Point> {
    match FuelTemperature(s)
    case None => []
    case Some(t) => [Point(t, s.kpiValue)]
  }

  /** `fuelScatterPoints` as a value: the scenarios' points, in scenario order. */
  function ScatterPoints(sims: seq<Entry>): seq<Point> {
    Seqs.FlatMap(sims, PointsOf)
  }

  /** Points of a concatenation are the points of each part, in order. */
  lemma ScatterAppend(a: seq<Entry>, b: seq<Entry>)
    ensures ScatterPoints(a + b) == ScatterPoints(a) + ScatterPoints(b)
  {
    Seqs.FlatMapAppend(a, b, PointsOf);
  }

  /** Each scenario yields one point, (fuel temperature, KPI value), exactly when it has a fuel temperature. */
  lemma ScatterOfOne(s: Entry)
    ensures |ScatterPoints([s])| <= 1
    ensures |ScatterPoints([s])| == 1 <==> FuelTemperature(s).Some?
    ensures FuelTemperature(s).Some? ==> ScatterPoints([s]) == [Point(FuelTemperature(s).value, s.kpiValue)]
  {
    assert [s][..0] == [];
    assert ScatterPoints([s]) == Seqs.FlatMap([], PointsOf) + PointsOf(s);
  }

  /** The points of the first `i + 1` scenarios extend those of the first `i` by scenario `i`'s. */
  lemma ScatterStep(sims: seq<Entry>, i: nat)
    requires i < |sims|
    ensures ScatterPoints(sims[..i + 1]) == ScatterPoints(sims[..i]) + PointsOf(sims[i])
  {
    assert sims[..i + 1] == sims[..i] + [sims[i]];
    ScatterAppend(sims[..i], [sims[i]]);
    assert [sims[i]][..0] == [];
    assert ScatterPoints([sims[i]]) == Seqs.FlatMap([], PointsOf) + PointsOf(sims[i]);
  }

  /** The `forEach` loop that pushes one point per scenario with a fuel temperature. */
  method FuelScatterPoints(sims: seq<Entry>) returns (points: seq<Point>)
    ensures points == ScatterPoints(sims)
  {
    points := [];
    var i := 0;
    while i < |sims|
      invariant 0 <= i <= |sims|
      invariant points == ScatterPoints(sims[..i])
    {
      var s := sims[i];
      var fuelTemp := FuelTemperature(s);
      if fuelTemp.Some? {
        points := points + [Point(fuelTemp.value, s.kpiValue)];
      }
      ScatterStep(sims, i);
      i := i + 1;
    }
    assert sims[..i] == sims;
  }

  // ------------------------------------------------------------- bar chart

  /** What one equipment entry adds to a bucket: the first matching variable of a matching entry. */
  function HitOf(eq: Equipment, equipment: string, variable: string): (r: seq<real>)
    ensures |r| <= 1
  {
    if eq.equipment == equipment then
      match FirstValue(eq.variables, variable)
      case None => []
      case Some(v) => [v]
    else []
  }

  function EquipmentHits(eqs: seq<Equipment>, equipment: string, variable: string): seq<real> {
    if eqs == [] then []
    else EquipmentHits(eqs[..|eqs| - 1], equipment, variable) + HitOf(eqs[|eqs| - 1], equipment, variable)
  }

  /** The values a bucket collects, visiting every equipment entry of every scenario in order. */
  function Hits(sims: seq<Entry>, equipment: string, variable: string): seq<real> {
    if sims == [] then []
    else Hits(sims[..|sims| - 1], equipment, variable)
         + EquipmentHits(sims[|sims| - 1].equipment, equipment, variable)
  }

  function AccOf(values: seq<real>): Acc {
    Acc(Stats.Sum(values), |values|)
  }

  /** A bucket after the whole data set. */
  function Bucket(sims: seq<Entry>, equipment: string, variable: string): Acc {
    AccOf(Hits(sims, equipment, variable))
  }

  /** `avg`: 0 for an empty bucket, the mean otherwise. */
  function Average(a: Acc): real {
    if a.count > 0 then a.sum / a.count as real else 0.0
  }

  /** A bucket's average is 0 when nothing was collected and otherwise lies between the least and greatest value collected. */
  lemma BucketAverage(sims: seq<Entry>, equipment: string, variable: string)
    ensures Hits(sims, equipment, variable) == [] ==> Average(Bucket(sims, equipment, variable)) == 0.0
    ensures Hits(sims, equipment, variable) != [] ==>
              Stats.Min(Hits(sims, equipment, variable))
              <= Average(Bucket(sims, equipment, variable))
              <= Stats.Max(Hits(sims, equipment, variable))
  {
    var h := Hits(sims, equipment, variable);
    if h != [] {
      Stats.MeanBetween(h);
      assert Average(Bucket(sims, equipment, variable)) == Stats.Mean(h);
    }
  }

  /** Adds what `eq` contributes to a bucket. */
  function Step(a: Acc, eq: Equipment, equipment: string, variable: string): Acc {
    if eq.equipment == equipment then
      match FirstValue(eq.variables, variable)
      case None => a
      case Some(v) => Acc(a.sum + v, a.count + 1)
    else a
  }

  /** One step of the loop keeps the bucket equal to the sum and count of what it collected. */
  lemma StepCollects(h: seq<real>, eq: Equipment, equipment: string, variable: string)
    ensures Step(AccOf(h), eq, equipment, variable) == AccOf(h + HitOf(eq, equipment, variable))
  {
    var hit := HitOf(eq, equipment, variable);
    if hit == [] {
      assert h + hit == h;
    } else {
      Stats.SumAppend(h, hit[0]);
      assert hit == [hit[0]];
    }
  }

  /** Visiting equipment entry `j` moves a bucket from the first `j` entries to the first `j + 1`. */
  lemma StepNext(h: seq<real>, eqs: seq<Equipment>, j: nat, equipment: string, variable: string)
    requires j < |eqs|
    ensures Step(AccOf(h + EquipmentHits(eqs[..j], equipment, variable)), eqs[j], equipment, variable)
            == AccOf(h + EquipmentHits(eqs[..j + 1], equipment, variable))
  {
    var prefix := eqs[..j + 1];
    assert prefix[..j] == eqs[..j] && prefix[j] == eqs[j];
    assert EquipmentHits(prefix, equipment, variable)
        == EquipmentHits(eqs[..j], equipment, variable) + HitOf(eqs[j], equipment, variable);
    StepCollects(h + EquipmentHits(eqs[..j], equipment, variable), eqs[j], equipment, variable);
    assert h + EquipmentHits(prefix, equipment, variable)
        == h + EquipmentHits(eqs[..j], equipment, variable) + HitOf(eqs[j], equipment, variable);
  }

  /** The inner `forEach` over one scenario's equipment, adding to all three buckets. */
  method AddScenario(fuel: Acc, air: Acc, cold: Acc, eqs: seq<Equipment>,
                     ghost fuelSoFar: seq<real>, ghost airSoFar: seq<real>, ghost coldSoFar: seq<real>)
    returns (fuel': Acc, air': Acc, cold': Acc)
    requires fuel == AccOf(fuelSoFar) && air == AccOf(airSoFar) && cold == AccOf(coldSoFar)
    ensures fuel' == AccOf(fuelSoFar + EquipmentHits(eqs, FuelEquipment, FuelVariable))
    ensures air' == AccOf(airSoFar + EquipmentHits(eqs, AirEquipment, AirVariable))
    ensures cold' == AccOf(coldSoFar + EquipmentHits(eqs, HexEquipment, HexVariable))
  {
    fuel', air', cold' := fuel, air, cold;
    var j := 0;
    assert eqs[..0] == [];
    assert fuelSoFar + [] == fuelSoFar && airSoFar + [] == airSoFar && coldSoFar + [] == coldSoFar;
    while j < |eqs|
      invariant 0 <= j <= |eqs|
      invariant fuel' == AccOf(fuelSoFar + EquipmentHits(eqs[..j], FuelEquipment, FuelVariable))
      invariant air' == AccOf(airSoFar + EquipmentHits(eqs[..j], AirEquipment, AirVariable))
      invariant cold' == AccOf(coldSoFar + EquipmentHits(eqs[..j], HexEquipment, HexVariable))
    {
      var eq := eqs[j];
      StepNext(fuelSoFar, eqs, j, FuelEquipment, FuelVariable);
      StepNext(airSoFar, eqs, j, AirEquipment, AirVariable);
      StepNext(coldSoFar, eqs, j, HexEquipment, HexVariable);
      fuel' := Step(fuel', eq, FuelEquipment, FuelVariable);
      air' := Step(air', eq, AirEquipment, AirVariable);
      cold' := Step(cold', eq, HexEquipment, HexVariable);
      j := j + 1;
    }
    assert eqs[..j] == eqs;
  }

  /** The outer `forEach` over the scenarios, filling the three buckets. */
  method Aggregate(sims: seq<Entry>) returns (fuel: Acc, air: Acc, cold: Acc)
    ensures fuel == Bucket(sims, FuelEquipment, FuelVariable)
    ensures air == Bucket(sims, AirEquipment, AirVariable)
    ensures cold == Bucket(sims, HexEquipment, HexVariable)
  {
    fuel, air, cold := Acc(0.0, 0), Acc(0.0, 0), Acc(0.0, 0);
    var i := 0;
    while i < |sims|
      invariant 0 <= i <= |sims|
      invariant fuel == Bucket(sims[..i], FuelEquipment, FuelVariable)
      invariant air == Bucket(sims[..i], AirEquipment, AirVariable)
      invariant cold == Bucket(sims[..i], HexEquipment, HexVariable)
    {
      fuel, air, cold := AddScenario(fuel, air, cold, sims[i].equipment,
                                     Hits(sims[..i], FuelEquipment, FuelVariable),
                                     Hits(sims[..i], AirEquipment, AirVariable),
                                     Hits(sims[..i], HexEquipment, HexVariable));
      assert sims[..i + 1][..i] == sims[..i];
      i := i + 1;
    }
    assert sims[..i] == sims;
  }

  // ------------------------------------------------------------- the panel

  /** The charts built from the scenarios. */
  /** The mean of the collected values, 0 when there are none. */
  function MeanOrZero(values: seq<real>): real {
    if values == [] then 0.0 else Stats.Mean(values)
  }

  /**
   * The chart data: labels and KPI values per scenario, the scatter points, and
   * three bars in the order Fuel, Air, Cold Fluid, each the mean of what its
   * bucket collected (0 for an empty bucket).
   */
  function ChartsOf(sims: seq<Entry>): (r: ChartsData)
    ensures |r.labels| == |sims| && |r.kpiValues| == |sims|
    ensures r.barLabels == ["Fuel", "Air", "Cold Fluid"]
    ensures r.barValues == [MeanOrZero(Hits(sims, "Fuel", "Fuel - temperature")),
                            MeanOrZero(Hits(sims, "Air", "temperature")),
                            MeanOrZero(Hits(sims, "HEX-100", "cold_fluid_temperature"))]
  {
    ChartsData(
      ScenarioLabels(sims),
      KpiSeries(sims),
      ScatterPoints(sims),
      [FuelEquipment, AirEquipment, "Cold Fluid"],
      [Average(Bucket(sims, FuelEquipment, FuelVariable)),
       Average(Bucket(sims, AirEquipment, AirVariable)),
       Average(Bucket(sims, HexEquipment, HexVariable))])
  }

  /**
   * What the panel shows: a loading note until loading ends; then a message
   * (the error text if any, else the no-data text) unless there is no error and
   * the simulated list is present; only then the charts.
   */
  function PanelView(loading: bool, error: Option<string>, data: Option<Dataset>): (v: View)
    ensures loading <==> v.Loading?
    ensures v.Rendered? <==> !loading && !Truthy(error) && HasSimulatedData(data)
    ensures v.Message? ==> v.text == if error.Some? then error.value else NoDataMessage
    ensures v.Rendered? ==>
              |v.charts.labels| == |v.charts.kpiValues| == |SimulatedData(data)|
              && |v.charts.barLabels| == |v.charts.barValues| == 3
  {
    if loading then Loading
    else if Truthy(error) || !HasSimulatedData(data) then Message(error.GetOr(NoDataMessage))
    else Rendered(ChartsOf(SimulatedData(data)))
  }

  /** The component body: gate, then the maps and the two loops. */
  method Render(loading: bool, error: Option<string>, data: Option<Dataset>) returns (v: View)
    ensures v == PanelView(loading, error, data)
  {
    if loading {
      return Loading;
    }
    if Truthy(error) || !HasSimulatedData(data) {
      return Message(error.GetOr(NoDataMessage));
    }
    var sims := SimulatedData(data);
    var labels := ScenarioLabels(sims);
    var kpis := KpiSeries(sims);
    var points := FuelScatterPoints(sims);
    var fuel, air, cold := Aggregate(sims);
    v := Rendered(ChartsData(labels, kpis, points, [FuelEquipment, AirEquipment, "Cold Fluid"],
                             [Average(fuel), Average(air), Average(cold)]));
  }
}
