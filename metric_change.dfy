// The part of a CloudWatch metric change that the per-metric helpers of the
// RDS and S3 metric namespaces default: period, statistic and unit, and how
// `{ ...defaults, ...change }` combines a helper's defaults with the caller's
// change.
module MetricChanges {
  import opened Wrappers

  /** The `cloudwatch.MetricChange` fields a per-metric helper may default. */
  datatype MetricChange = MetricChange(period: Option<int>, statistic: Option<string>, unit: Option<string>)

  /** The empty change `{}`. */
  const NoChange: MetricChange := MetricChange(None, None, None)

  /** `{ ...defaults, ...change }`: each field the change gives wins, the others keep the default. */
  function Spread(defaults: MetricChange, change: MetricChange): (r: MetricChange)
    ensures change.period.Some? ==> r.period == change.period
    ensures change.period.None? ==> r.period == defaults.period
    ensures change.statistic.Some? ==> r.statistic == change.statistic
    ensures change.statistic.None? ==> r.statistic == defaults.statistic
    ensures change.unit.Some? ==> r.unit == change.unit
    ensures change.unit.None? ==> r.unit == defaults.unit
  {
    MetricChange(
      if change.period.Some? then change.period else defaults.period,
      if change.statistic.Some? then change.statistic else defaults.statistic,
      if change.unit.Some? then change.unit else defaults.unit)
  }

  /** Spreading has the empty change as its unit on both sides, groups either way and repeats harmlessly. */
  lemma SpreadLaws(a: MetricChange, b: MetricChange, c: MetricChange)
    ensures Spread(NoChange, a) == a && Spread(a, NoChange) == a
    ensures Spread(Spread(a, b), c) == Spread(a, Spread(b, c))
    ensures Spread(a, a) == a
    ensures Spread(Spread(a, b), b) == Spread(a, b)
  {
  }

  /** The arguments handed to `new cloudwatch.Metric`. */
  datatype MetricArgs = MetricArgs(namespace: string, name: string, change: MetricChange)
}
