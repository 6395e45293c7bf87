/** The metric record of a metric envelope (Models/AiMetric.cs). The
    source's doubles are carried as reals: the constructor only copies and
    compares them, it does no arithmetic. */
module Metrics {
  import opened Outcomes
  import opened Text

  /** The longest name kept whole; a longer one keeps its first 511 characters. */
  const MaxNameLength: nat := 512

  datatype DataPointKind = Measurement | Aggregation

  datatype AiMetric = AiMetric(
    name: string,
    value: real,
    count: real,
    min: real,
    max: real,
    stdDev: real,
    kind: DataPointKind)

  /** The AiMetric constructor: the name is truncated, missing statistics
      default from the value, and the kind is decided by the `count`
      argument as given, before its default is applied. A null name
      (`None`) throws a NullReferenceException at `name.Length`. */
  function NewAiMetric(name: Option<string>, value: real, count: Option<real>, min: Option<real>,
                       max: Option<real>, stdDev: Option<real>): (r: Result<AiMetric>)
    ensures r.Err? <==> name.None?
    ensures r.Err? ==> r.fault == NullReference
    ensures r.Ok? && |name.value| <= MaxNameLength ==> r.value.name == name.value
    ensures r.Ok? && |name.value| > MaxNameLength ==> r.value.name == name.value[..MaxNameLength - 1]
    ensures r.Ok? ==> r.value.value == value
    ensures r.Ok? ==> r.value.count == (if count.Some? then count.value else 1.0)
    ensures r.Ok? ==> r.value.min == (if min.Some? then min.value else value)
    ensures r.Ok? ==> r.value.max == (if max.Some? then max.value else value)
    ensures r.Ok? ==> r.value.stdDev == (if stdDev.Some? then stdDev.value else 0.0)
    ensures r.Ok? ==> (r.value.kind == Measurement <==> count == Some(1.0))
  {
    if name.None? then Err(NullReference)
    else
      Ok(AiMetric(
        Truncate(name.value, MaxNameLength),
        value,
        if count.None? then 1.0 else count.value,
        if min.None? then value else min.value,
        if max.None? then value else max.value,
        if stdDev.None? then 0.0 else stdDev.value,
        if count == Some(1.0) then Measurement else Aggregation))
  }

  /** A metric written without a count records a count of 1 but is still
      marked as an aggregation: the kind tests the argument, not the
      defaulted count. */
  lemma MissingCountIsAggregation(name: string, value: real)
    ensures var m := NewAiMetric(Some(name), value, None, None, None, None).value;
      m.count == 1.0 && m.kind == Aggregation
      && m.min == value && m.max == value && m.stdDev == 0.0
  {
  }

  /** Only an explicit count of exactly 1 makes a measurement. */
  lemma KindFromCount(name: string, value: real, c: real)
    ensures NewAiMetric(Some(name), value, Some(c), None, None, None).value.kind
      == (if c == 1.0 then Measurement else Aggregation)
  {
  }

  /** The stored name never exceeds the limit, and is never longer than the
      name given. */
  lemma NameBound(name: string, value: real, count: Option<real>)
    ensures |NewAiMetric(Some(name), value, count, None, None, None).value.name| <= MaxNameLength
    ensures NewAiMetric(Some(name), value, count, None, None, None).value.name <= name
  {
  }
}
