/**
 * The `Scaler` interface the controller programs against, as one datatype over
 * the two kinds of scaler, with the interface's five operations dispatched to
 * each kind. `Backends` bundles the two oracles the kinds consult.
 */
module Scalers {
  import opened Wrappers
  import opened Errors
  import opened Metrics
  import MySQL
  import AzureQueue

  datatype Backends = Backends(runQuery: MySQL.QueryRunner, queueService: AzureQueue.QueueService)

  datatype Scaler =
    | MySQLScaler(mysql: MySQL.MySQLScaler)
    | AzureQueueScaler(queue: AzureQueue.AzureQueueScaler)

  /** The objects `Close` may change. */
  function Footprint(s: Scaler): set<object> {
    if s.MySQLScaler? then {s.mysql} else {}
  }

  /** The value each kind polls to decide activity: the query result, or the approximate queue length. */
  function PrimaryValue(s: Scaler, backend: Backends): Result<int, BackendError> {
    match s
    case MySQLScaler(m) => backend.runQuery(m.metadata.query)
    case AzureQueueScaler(q) => backend.queueService(AzureQueue.ApproximateLength(q.Queue()))
  }

  /** The metric whose value is the one `IsActive` tests. */
  function PrimaryMetricName(s: Scaler): string {
    if s.MySQLScaler? then MySQL.MySQLMetricName else AzureQueue.QueueLengthMetricName
  }

  /** `IsActive`: true exactly when the polled value is positive; a failed poll is an error, never `false`. */
  function IsActive(s: Scaler, backend: Backends): (r: Result<bool, Error>)
    ensures r.Success? <==> PrimaryValue(s, backend).Success?
    ensures r.Success? ==> (r.value <==> PrimaryValue(s, backend).value > 0)
    ensures r.Failure? ==> r.error == Backend(PrimaryValue(s, backend).error)
  {
    match s
    case MySQLScaler(m) => m.IsActive(backend.runQuery)
    case AzureQueueScaler(q) => q.IsActive(backend.queueService)
  }

  /** `GetMetrics`: a success carries exactly one sample, stamped with the time of the call. */
  function GetMetrics(s: Scaler, metricName: string, backend: Backends, now: Timestamp)
    : (r: Result<seq<MetricValue>, Error>)
    ensures r.Success? ==> |r.value| == 1 && r.value[0].timestamp == now
  {
    match s
    case MySQLScaler(m) => m.GetMetrics(metricName, backend.runQuery, now)
    case AzureQueueScaler(q) => q.GetMetrics(metricName, backend.queueService, now)
  }

  /** `GetMetricSpecForScaling`: exactly one External metric for either kind. */
  function GetMetricSpecForScaling(s: Scaler): (specs: seq<MetricSpec>)
    ensures |specs| == 1 && specs[0].metricType == ExternalMetricType
    ensures specs[0].metricName == PrimaryMetricName(s)
  {
    match s
    case MySQLScaler(m) => m.GetMetricSpecForScaling()
    case AzureQueueScaler(q) => q.GetMetricSpecForScaling()
  }

  /** `GetMetricSpecForScalingJob`: at most one External metric (none for MySQL). */
  function GetMetricSpecForScalingJob(s: Scaler): (specs: seq<MetricSpec>)
    ensures |specs| <= 1
    ensures forall i :: 0 <= i < |specs| ==> specs[i].metricType == ExternalMetricType
    ensures s.MySQLScaler? <==> specs == []
  {
    match s
    case MySQLScaler(m) => m.GetMetricSpecForScalingJob()
    case AzureQueueScaler(q) => q.GetMetricSpecForScalingJob()
  }

  /** `Close`: the MySQL kind releases its database handle; the queue kind has nothing to release. */
  method Close(s: Scaler, closeError: Option<BackendError>) returns (err: Option<Error>)
    modifies Footprint(s)
    ensures s.MySQLScaler? ==> s.mysql.closed
    ensures s.MySQLScaler? && closeError.Some? ==> err == Some(Backend(closeError.value))
    ensures s.AzureQueueScaler? || closeError.None? ==> err.None?
  {
    match s
    case MySQLScaler(m) =>
      err := m.Close(closeError);
    case AzureQueueScaler(q) =>
      err := q.Close();
  }

  /**
   * Every metric a scaler advertises is served by `GetMetrics` under that name: a
   * request for it fails only when the backend does, and a sample carries the name.
   */
  lemma AdvertisedMetricsAreServed(s: Scaler, backend: Backends, now: Timestamp, spec: MetricSpec)
    requires spec in GetMetricSpecForScaling(s) + GetMetricSpecForScalingJob(s)
    ensures var r := GetMetrics(s, spec.metricName, backend, now);
            && (r.Success? ==> r.value[0].metricName == spec.metricName)
            && (r.Failure? ==> r.error.Backend? || r.error.InspectingMySQL?)
  {
  }

  /** `IsActive` agrees with the primary metric's sample: active exactly when that sample is positive. */
  lemma IsActiveMatchesPrimaryMetric(s: Scaler, backend: Backends, now: Timestamp)
    ensures var active := IsActive(s, backend);
            var sample := GetMetrics(s, PrimaryMetricName(s), backend, now);
            && (active.Success? <==> sample.Success?)
            && (active.Success? ==> (active.value <==> sample.value[0].value > 0))
  {
  }

  /**
   * An unrecognised metric name is an error for the queue kind, but the MySQL kind
   * answers every name with its one sample whenever the query succeeds.
   */
  lemma UnknownMetricNames(s: Scaler, metricName: string, backend: Backends, now: Timestamp)
    requires metricName != AzureQueue.QueueLengthMetricName && metricName != AzureQueue.VisibleQueueLengthMetricName
    ensures s.AzureQueueScaler? ==> GetMetrics(s, metricName, backend, now) == Failure(NoMetricFound(metricName))
    ensures s.MySQLScaler? && PrimaryValue(s, backend).Success? ==>
              GetMetrics(s, metricName, backend, now).Success?
              && GetMetrics(s, metricName, backend, now).value[0].metricName == MySQL.MySQLMetricName
  {
  }
}
