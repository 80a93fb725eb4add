/** Resolution of the unit reported for one metric: a descriptor configured for the
    metric's name may override the unit the data carries; otherwise a fixed table
    spells out five OpenTelemetry abbreviations in CloudWatch's vocabulary. */
module Units {

  /** The two attributes of a metric that unit resolution reads. */
  datatype Metric = Metric(name: string, unit: string)

  /** Per-metric configuration that forces a unit, optionally over the data's own unit. */
  datatype MetricDescriptor = MetricDescriptor(metricName: string, unit: string, overwrite: bool)

  /** The abbreviation table, as a reference definition independent of the switch below. */
  const UnitAbbreviations: map<string, string> :=
    map["ms" := "Milliseconds", "s" := "Seconds", "us" := "Microseconds", "By" := "Bytes", "Bi" := "Bits"]

  /** The switch on the raw unit: one of five abbreviations is spelled out, anything else passes through. */
  function Abbreviate(unit: string): (r: string)
    ensures unit in UnitAbbreviations ==> r == UnitAbbreviations[unit]
    ensures unit !in UnitAbbreviations ==> r == unit
  {
    if unit == "ms" then "Milliseconds"
    else if unit == "s" then "Seconds"
    else if unit == "us" then "Microseconds"
    else if unit == "By" then "Bytes"
    else if unit == "Bi" then "Bits"
    else unit
  }

  /** A descriptor exists for the metric and either the data carries no unit or the descriptor overwrites. */
  predicate DescriptorApplies(metric: Metric, descriptors: map<string, MetricDescriptor>) {
    metric.name in descriptors && (metric.unit == "" || descriptors[metric.name].overwrite)
  }

  /** The unit written for a metric: the descriptor's when it applies, the table's otherwise. */
  function TranslateUnit(metric: Metric, descriptors: map<string, MetricDescriptor>): (r: string)
    ensures DescriptorApplies(metric, descriptors) ==> r == descriptors[metric.name].unit
    ensures !DescriptorApplies(metric, descriptors) && metric.unit in UnitAbbreviations ==>
              r == UnitAbbreviations[metric.unit]
    ensures !DescriptorApplies(metric, descriptors) && metric.unit !in UnitAbbreviations ==> r == metric.unit
  {
    if metric.name in descriptors && (metric.unit == "" || descriptors[metric.name].overwrite) then
      descriptors[metric.name].unit
    else
      Abbreviate(metric.unit)
  }

  /** A descriptor with the overwrite flag wins whatever unit the data carries. */
  lemma OverwritingDescriptorWins(metric: Metric, descriptors: map<string, MetricDescriptor>)
    requires metric.name in descriptors && descriptors[metric.name].overwrite
    ensures TranslateUnit(metric, descriptors) == descriptors[metric.name].unit
  {
  }

  /** A descriptor without the overwrite flag only fills in a missing unit; a present unit goes through the table. */
  lemma NonOverwritingDescriptorFillsGap(metric: Metric, descriptors: map<string, MetricDescriptor>)
    requires metric.name in descriptors && !descriptors[metric.name].overwrite
    ensures metric.unit == "" ==> TranslateUnit(metric, descriptors) == descriptors[metric.name].unit
    ensures metric.unit != "" ==> TranslateUnit(metric, descriptors) == Abbreviate(metric.unit)
  {
  }

  /** The table is applied once: a spelled-out unit is not abbreviated again. */
  lemma AbbreviateIdempotent(unit: string)
    ensures Abbreviate(Abbreviate(unit)) == Abbreviate(unit)
  {
  }

  /** Worked cases: "ms" without a descriptor, and an overwriting "Count" descriptor over a raw "1". */
  lemma TranslateUnitExamples()
    ensures TranslateUnit(Metric("latency", "ms"), map[]) == "Milliseconds"
    ensures TranslateUnit(Metric("requests", "1"),
                          map["requests" := MetricDescriptor("requests", "Count", true)]) == "Count"
    ensures TranslateUnit(Metric("cpu.load", ""), map[]) == ""
  {
  }
}
