// The S3 metrics of the legacy SDK's CloudWatch helpers
// (sdk/nodejs/legacy/s3/metrics.ts): every helper builds an "AWS/S3" metric
// of its name with its own default statistic and unit under the caller's
// change, filtered by the bucket, storage type and filter id the caller
// names.
module S3Metrics {
  import opened Wrappers
  import M = MetricChanges

  /**
   * `S3MetricChange`: the bucket (by its name), storage type and filter id
   * to filter on, and the metric change.
   */
  datatype S3MetricChange = S3MetricChange(
    bucket: Option<string>, storageType: Option<string>, filterId: Option<string>, change: M.MetricChange)

  /** The empty change `{}`. */
  const NoS3Change: S3MetricChange := S3MetricChange(None, None, None, M.NoChange)

  /** The dimensions an S3 metric can be filtered by. */
  datatype Dimension = BucketName | StorageType | FilterId

  /** The dimension's key in the dimensions record. */
  function DimensionKey(d: Dimension): string
  {
    match d
    case BucketName => "BucketName"
    case StorageType => "StorageType"
    case FilterId => "FilterId"
  }

  /** The filter a change gives for a dimension, if any: the bucket's name for `BucketName`. */
  function Filter(change: S3MetricChange, d: Dimension): Option<string>
  {
    match d
    case BucketName => change.bucket
    case StorageType => change.storageType
    case FilterId => change.filterId
  }

  /**
   * The dimensions `metric` collects: the key of each filter the change
   * gives, with its value, and no other key.
   */
  function Dimensions(change: S3MetricChange): (r: map<Dimension, string>)
    ensures forall d :: d in r <==> Filter(change, d).Some?
    ensures forall d :: d in r ==> r[d] == Filter(change, d).value
  {
    var withBucket: map<Dimension, string> := if change.bucket.Some? then map[BucketName := change.bucket.value] else map[];
    var withStorage := if change.storageType.Some? then withBucket[StorageType := change.storageType.value] else withBucket;
    if change.filterId.Some? then withStorage[FilterId := change.filterId.value] else withStorage
  }

  /** An S3 metric: its arguments, then the dimensions given to `withDimensions`. */
  datatype MetricRequest = MetricRequest(args: M.MetricArgs, dimensions: map<Dimension, string>)

  /** `metric(metricName, change = {})`: an "AWS/S3" metric of that name, with the change's fields and its dimensions. */
  function Metric(metricName: string, change: Option<S3MetricChange>): (r: MetricRequest)
    ensures r.args.namespace == "AWS/S3" && r.args.name == metricName
    ensures r.args.change == change.GetOr(NoS3Change).change
    ensures r.dimensions == Dimensions(change.GetOr(NoS3Change))
  {
    var given := change.GetOr(NoS3Change);
    MetricRequest(M.MetricArgs("AWS/S3", metricName, given.change), Dimensions(given))
  }

  /** The exported per-metric helpers, one per metric. */
  datatype Helper =
    | BucketSizeBytes | NumberOfObjects
    | AllRequests | GetRequests | PutRequests | DeleteRequests | HeadRequests | PostRequests | SelectRequests
    | SelectScannedBytes | SelectReturnedBytes | ListRequests
    | BytesDownloaded | BytesUploaded | Errors4xx | Errors5xx
    | FirstByteLatency | TotalRequestLatency

  /** The metric a helper builds. */
  function MetricName(helper: Helper): string
  {
    match helper
    case BucketSizeBytes => "BucketSizeBytes"
    case NumberOfObjects => "NumberOfObjects"
    case AllRequests => "AllRequests"
    case GetRequests => "GetRequests"
    case PutRequests => "PutRequests"
    case DeleteRequests => "DeleteRequests"
    case HeadRequests => "HeadRequests"
    case PostRequests => "PostRequests"
    case SelectRequests => "SelectRequests"
    case SelectScannedBytes => "SelectScannedBytes"
    case SelectReturnedBytes => "SelectReturnedBytes"
    case ListRequests => "ListRequests"
    case BytesDownloaded => "BytesDownloaded"
    case BytesUploaded => "BytesUploaded"
    case Errors4xx => "4xxErrors"
    case Errors5xx => "5xxErrors"
    case FirstByteLatency => "FirstByteLatency"
    case TotalRequestLatency => "TotalRequestLatency"
  }

  /** The helpers counting HTTP requests, each documented with unit Count and statistic Sum. */
  predicate IsRequestCount(helper: Helper)
  {
    helper in {AllRequests, GetRequests, PutRequests, DeleteRequests, HeadRequests, PostRequests, SelectRequests, ListRequests}
  }

  const SumOfCount: M.MetricChange := M.MetricChange(None, Some("Sum"), Some("Count"))

  /** The defaults each helper puts before the caller's change, as the helpers are written. */
  function DefaultsAsWritten(helper: Helper): M.MetricChange
  {
    match helper
    case BucketSizeBytes => M.MetricChange(None, None, Some("Bytes"))
    case NumberOfObjects => M.MetricChange(None, None, Some("Count"))
    case AllRequests => SumOfCount
    case GetRequests => SumOfCount
    case PutRequests => SumOfCount
    case DeleteRequests => SumOfCount
    case HeadRequests => SumOfCount
    case PostRequests => SumOfCount
    case SelectRequests => SumOfCount
    case SelectScannedBytes => M.MetricChange(None, None, Some("Bytes"))
    case SelectReturnedBytes => M.MetricChange(None, None, Some("Bytes"))
    case ListRequests => M.MetricChange(None, Some("Sum"), Some("Bytes"))
    case BytesDownloaded => M.MetricChange(None, None, Some("Bytes"))
    case BytesUploaded => M.MetricChange(None, None, Some("Bytes"))
    case Errors4xx => M.MetricChange(None, None, Some("Count"))
    case Errors5xx => M.MetricChange(None, None, Some("Count"))
    case FirstByteLatency => M.MetricChange(None, None, Some("Milliseconds"))
    case TotalRequestLatency => M.MetricChange(None, None, Some("Milliseconds"))
  }

  /**
   * As written, `listRequests` is the one request count whose default unit
   * is not Count: it says Bytes, against its documented unit.
   */
  lemma ListRequestsUnitAsWritten()
    ensures IsRequestCount(ListRequests)
    ensures DefaultsAsWritten(ListRequests).unit == Some("Bytes") != SumOfCount.unit
    ensures forall helper :: IsRequestCount(helper) && helper != ListRequests ==> DefaultsAsWritten(helper) == SumOfCount
  {
  }

  /** The defaults with `listRequests` counting requests, as its documentation says. */
  function DefaultsFor(helper: Helper): (r: M.MetricChange)
    ensures r.period.None?
    ensures helper != ListRequests ==> r == DefaultsAsWritten(helper)
  {
    if helper == ListRequests then SumOfCount else DefaultsAsWritten(helper)
  }

  /** Every request count defaults to the Sum statistic in Count units, and only request counts default a statistic. */
  lemma RequestCountsSumCounts(helper: Helper)
    ensures IsRequestCount(helper) ==> DefaultsFor(helper) == SumOfCount
    ensures DefaultsFor(helper).statistic.Some? <==> IsRequestCount(helper)
  {
  }

  /** `{ ...defaults, ...change }` on an S3 change: the filters are the caller's, the metric fields spread. */
  function WithDefaults(defaults: M.MetricChange, change: Option<S3MetricChange>): (r: S3MetricChange)
    ensures r.change == M.Spread(defaults, change.GetOr(NoS3Change).change)
    ensures r.(change := M.NoChange) == change.GetOr(NoS3Change).(change := M.NoChange)
  {
    var given := change.GetOr(NoS3Change);
    given.(change := M.Spread(defaults, given.change))
  }

  /**
   * An exported helper such as `allRequests(change?)`: the metric "AWS/S3"
   * under the helper's own name, whose dimensions are exactly the caller's
   * filters;
   * each of the caller's period, statistic and unit wins over the helper's
   * default, which stands where the caller gives none.
   */
  function HelperMetric(helper: Helper, change: Option<S3MetricChange>): (r: MetricRequest)
    ensures r.args.namespace == "AWS/S3" && r.args.name == MetricName(helper)
    ensures r.dimensions == Dimensions(change.GetOr(NoS3Change))
    ensures r.args.change.period == (if change.Some? && change.value.change.period.Some? then change.value.change.period else DefaultsFor(helper).period)
    ensures r.args.change.statistic ==
      (if change.Some? && change.value.change.statistic.Some? then change.value.change.statistic else DefaultsFor(helper).statistic)
    ensures r.args.change.unit == (if change.Some? && change.value.change.unit.Some? then change.value.change.unit else DefaultsFor(helper).unit)
  {
    Metric(MetricName(helper), Some(WithDefaults(DefaultsFor(helper), change)))
  }
}
