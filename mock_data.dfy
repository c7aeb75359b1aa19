/**
 * The shape of the `data` object of the mock results file that the report
 * panel, the charts panel and the report endpoint read. Every level may be
 * absent; a KPI value may be missing.
 */
module MockData {
  import opened Wrappers

  datatype Variable = Variable(name: string, value: real)

  datatype Equipment = Equipment(equipment: string, variables: seq<Variable>)

  /** One simulated scenario. */
  datatype Entry = Entry(scenario: string, kpi: string, kpiValue: Option<real>, equipment: seq<Equipment>)

  datatype SimulatedSummary = SimulatedSummary(simulatedData: Option<seq<Entry>>)

  datatype Dataset = Dataset(
    mainSummary: Option<string>,
    topSummary: Option<string>,
    impactSummary: Option<string>,
    simulatedSummary: Option<SimulatedSummary>)

  /** `data?.simulated_summary?.simulated_data` is present. */
  predicate HasSimulatedData(d: Option<Dataset>) {
    d.Some? && d.value.simulatedSummary.Some? && d.value.simulatedSummary.value.simulatedData.Some?
  }

  /** `data?.simulated_summary?.simulated_data ?? []`: a missing list reads as empty. */
  function SimulatedData(d: Option<Dataset>): (r: seq<Entry>)
    ensures HasSimulatedData(d) ==> r == d.value.simulatedSummary.value.simulatedData.value
    ensures !HasSimulatedData(d) ==> r == []
  {
    match d
    case None => []
    case Some(ds) =>
      match ds.simulatedSummary
      case None => []
      case Some(summary) => summary.simulatedData.GetOr([])
  }

  /** JavaScript truthiness of an optional string: present and non-empty. */
  predicate Truthy(s: Option<string>) {
    s.Some? && s.value != ""
  }
}
