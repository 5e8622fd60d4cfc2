/**
 * The Azure Storage queue scaler: the length of a queue drives scaling. Its
 * settings are resolved once by a pure function of three maps and a requested
 * pod identity; the storage service is an oracle answering `QueueRequest`s.
 */
module AzureQueue {
  import opened Wrappers
  import opened Strconv
  import opened Config
  import opened Errors
  import opened Metrics

  const QueueLengthMetricName := "queueLength"
  const VisibleQueueLengthMetricName := "visibleQueueLength"
  const DefaultTargetQueueLength: Int64 := 5
  const DefaultConnectionSetting := "AzureWebJobsStorage"

  /** The pod identities the queue scaler accepts. */
  const NoIdentity := ""
  const NoneIdentity := "none"
  const AzureIdentity := "azure"

  predicate SupportedIdentity(mode: string) {
    mode == NoIdentity || mode == NoneIdentity || mode == AzureIdentity
  }

  predicate UsesConnectionString(mode: string) {
    mode == NoIdentity || mode == NoneIdentity
  }

  datatype AzureQueueMetadata = AzureQueueMetadata(
    targetQueueLength: Int64,
    queueName: string,
    connection: string,
    useAAdPodIdentity: bool,
    accountName: string)

  /** What `GetAzureQueueURL` is given to reach the queue. */
  datatype QueueRef = QueueRef(podIdentity: string, connection: string, queueName: string, accountName: string)

  /** The two questions the scaler asks the storage service. */
  datatype QueueRequest =
      /** `GetAzureQueueLength`: the approximate message count. */
    | ApproximateLength(queue: QueueRef)
      /** `GetAzureVisibleQueueLength`: how many messages a peek of at most `maxCount` sees. */
    | VisibleLength(queue: QueueRef, maxCount: Int32)

  /** The storage service, as far as the scaler can observe it. */
  type QueueService = QueueRequest -> Result<Int32, BackendError>

  /**
   * The pod identity in effect: the legacy metadata flag `useAAdPodIdentity: "true"`
   * selects "azure", but only when no identity was requested.
   */
  function EffectiveIdentity(metadata: Settings, podAuth: string): (mode: string)
    ensures podAuth != NoIdentity ==> mode == podAuth
    ensures mode == AzureIdentity <==>
              podAuth == AzureIdentity
              || (podAuth == NoIdentity && "useAAdPodIdentity" in metadata && metadata["useAAdPodIdentity"] == "true")
    ensures mode == podAuth || mode == AzureIdentity
  {
    if podAuth == NoIdentity && "useAAdPodIdentity" in metadata && metadata["useAAdPodIdentity"] == "true"
    then AzureIdentity
    else podAuth
  }

  /** The environment entry holding the connection string: `metadata["connection"]` if non-empty. */
  function ConnectionSetting(metadata: Settings): string {
    if Given(metadata, "connection") then metadata["connection"] else DefaultConnectionSetting
  }

  predicate QueueLengthParses(metadata: Settings) {
    QueueLengthMetricName !in metadata || Atoi(metadata[QueueLengthMetricName]).Success?
  }

  /** The settings that must be present and non-empty in the metadata under an identity mode. */
  function RequiredFields(mode: string): seq<string> {
    ["queueName"] + if mode == AzureIdentity then ["accountName"] else []
  }

  /** Under a connection-string identity: an auth parameter is given, or the environment has the setting. */
  predicate ConnectionResolves(metadata: Settings, resolvedEnv: Settings, authParams: Settings) {
    Given(authParams, "connection") || ConnectionSetting(metadata) in resolvedEnv
  }

  /** `parseAzureQueueMetadata(metadata, resolvedEnv, authParams, podAuth)`: the metadata and the identity in effect. */
  function ParseAzureQueueMetadata(metadata: Settings, resolvedEnv: Settings, authParams: Settings, podAuth: string)
    : (r: Result<(AzureQueueMetadata, string), Error>)
    // `queueLength` defaults to 5; any integer, negative ones included, is accepted, and a bad one is reported first
    ensures QueueLengthMetricName in metadata && Atoi(metadata[QueueLengthMetricName]).Failure? ==>
              r == Failure(QueueLengthParsing(metadata[QueueLengthMetricName], Atoi(metadata[QueueLengthMetricName]).error))
    ensures r.Success? && QueueLengthMetricName !in metadata ==> r.value.0.targetQueueLength == DefaultTargetQueueLength
    ensures r.Success? && QueueLengthMetricName in metadata ==>
              Atoi(metadata[QueueLengthMetricName]) == Success(r.value.0.targetQueueLength)
    // then `queueName` must be given and non-empty
    ensures QueueLengthParses(metadata) && !Given(metadata, "queueName") ==> r == Failure(Missing("queueName"))
    ensures r.Success? ==> Given(metadata, "queueName") && r.value.0.queueName == metadata["queueName"]
    // the identity returned is the effective one, and it is a supported one
    ensures r.Success? ==> r.value.1 == EffectiveIdentity(metadata, podAuth) && SupportedIdentity(r.value.1)
    ensures QueueLengthParses(metadata) && Given(metadata, "queueName") && !SupportedIdentity(EffectiveIdentity(metadata, podAuth)) ==>
              r == Failure(PodIdentityNotSupported(EffectiveIdentity(metadata, podAuth)))
    // under "" or "none": a non-empty auth parameter wins, else the named (or default) environment entry,
    // which must exist but may be empty
    ensures r.Success? && UsesConnectionString(r.value.1) ==>
              && r.value.0.accountName == ""
              && (Given(authParams, "connection") ==> r.value.0.connection == authParams["connection"])
              && (!Given(authParams, "connection") ==>
                    ConnectionSetting(metadata) in resolvedEnv
                    && r.value.0.connection == resolvedEnv[ConnectionSetting(metadata)])
    ensures QueueLengthParses(metadata) && Given(metadata, "queueName")
            && UsesConnectionString(EffectiveIdentity(metadata, podAuth))
            && !ConnectionResolves(metadata, resolvedEnv, authParams) ==>
              r == Failure(Missing("connection setting"))
    // under "azure": a non-empty account name is required and no connection string is kept
    ensures r.Success? && r.value.1 == AzureIdentity ==>
              Given(metadata, "accountName") && r.value.0.accountName == metadata["accountName"] && r.value.0.connection == ""
    ensures QueueLengthParses(metadata) && Given(metadata, "queueName")
            && EffectiveIdentity(metadata, podAuth) == AzureIdentity && !Given(metadata, "accountName") ==>
              r == Failure(Missing("accountName"))
    // the `useAAdPodIdentity` field is never set
    ensures r.Success? ==> !r.value.0.useAAdPodIdentity
  {
    if QueueLengthMetricName in metadata && Atoi(metadata[QueueLengthMetricName]).Failure? then
      Failure(QueueLengthParsing(metadata[QueueLengthMetricName], Atoi(metadata[QueueLengthMetricName]).error))
    else
      var targetQueueLength :=
        if QueueLengthMetricName in metadata then Atoi(metadata[QueueLengthMetricName]).value
        else DefaultTargetQueueLength;
      if !Given(metadata, "queueName") then Failure(Missing("queueName"))
      else
        var meta := AzureQueueMetadata(targetQueueLength, metadata["queueName"], "", false, "");
        var mode := EffectiveIdentity(metadata, podAuth);
        if UsesConnectionString(mode) then
          if Given(authParams, "connection") then Success((meta.(connection := authParams["connection"]), mode))
          else if ConnectionSetting(metadata) in resolvedEnv then
            Success((meta.(connection := resolvedEnv[ConnectionSetting(metadata)]), mode))
          else Failure(Missing("connection setting"))
        else if mode == AzureIdentity then
          if Given(metadata, "accountName") then Success((meta.(accountName := metadata["accountName"]), mode))
          else Failure(Missing("accountName"))
        else Failure(PodIdentityNotSupported(mode))
  }

  /**
   * The resolver succeeds exactly when `queueLength` (if present) parses, the fields the
   * effective identity requires are present and non-empty, the identity is supported and,
   * under a connection-string identity, the connection resolves. A missing field is
   * reported by naming the first one.
   */
  lemma ParseSucceedsIff(metadata: Settings, resolvedEnv: Settings, authParams: Settings, podAuth: string)
    ensures var r := ParseAzureQueueMetadata(metadata, resolvedEnv, authParams, podAuth);
            var mode := EffectiveIdentity(metadata, podAuth);
            var first := FirstMissing(RequiredFields(mode), NonEmpty(metadata));
            && (r.Success? <==>
                  && QueueLengthParses(metadata)
                  && first.None?
                  && SupportedIdentity(mode)
                  && (UsesConnectionString(mode) ==> ConnectionResolves(metadata, resolvedEnv, authParams)))
            && (QueueLengthParses(metadata) && first.Some? && (first.value == 0 || SupportedIdentity(mode)) ==>
                  r == Failure(Missing(RequiredFields(mode)[first.value])))
  {
  }

  /**
   * Every error the resolver reports is a bad `queueLength`, a missing setting or an
   * unsupported identity, and a missing setting reads as one of three "no ... given" texts.
   */
  lemma MissingFieldMessage(metadata: Settings, resolvedEnv: Settings, authParams: Settings, podAuth: string)
    ensures var r := ParseAzureQueueMetadata(metadata, resolvedEnv, authParams, podAuth);
            r.Failure? ==> r.error.QueueLengthParsing? || r.error.Missing? || r.error.PodIdentityNotSupported?
    ensures var r := ParseAzureQueueMetadata(metadata, resolvedEnv, authParams, podAuth);
            r.Failure? && r.error.Missing? ==>
              r.error.what in ["queueName", "connection setting", "accountName"]
              && Message(r.error) == "no " + r.error.what + " given"
  {
    var r := ParseAzureQueueMetadata(metadata, resolvedEnv, authParams, podAuth);
    if r.Failure? && r.error.Missing? {
      MissingMessageNamesField(r.error.what, r.error.what);
    }
  }

  /** A scaler keeps the resolved metadata and the effective identity and never changes them. */
  datatype AzureQueueScaler = AzureQueueScaler(metadata: AzureQueueMetadata, podIdentity: string)
  {
    function Queue(): QueueRef {
      QueueRef(podIdentity, metadata.connection, metadata.queueName, metadata.accountName)
    }

    /** The bound passed to the peek: the target queue length, converted with Go's `int32(...)`. */
    function PeekBound(): (bound: Int32)
      ensures MinInt32 <= metadata.targetQueueLength <= MaxInt32 ==> bound == metadata.targetQueueLength
      ensures (metadata.targetQueueLength - bound) % TwoTo32 == 0
    {
      ToInt32(metadata.targetQueueLength)
    }

    /** Active exactly when the approximate queue length is positive; a failed fetch is an error. */
    function IsActive(service: QueueService): (r: Result<bool, Error>)
      ensures r.Success? <==> service(ApproximateLength(Queue())).Success?
      ensures r.Success? ==> (r.value <==> service(ApproximateLength(Queue())).value > 0)
      ensures r.Failure? ==> r.error == Backend(service(ApproximateLength(Queue())).error)
    {
      match service(ApproximateLength(Queue()))
      case Failure(e) => Failure(Backend(e))
      case Success(length) => Success(length > 0)
    }

    /** Releasing the scaler always succeeds. */
    function Close(): (err: Option<Error>)
      ensures err.None?
    {
      None
    }

    /** One External metric, "queueLength", with the target queue length. */
    function GetMetricSpecForScaling(): (specs: seq<MetricSpec>)
      ensures |specs| == 1 && specs[0].metricType == ExternalMetricType
      ensures specs[0].metricName == QueueLengthMetricName
      ensures specs[0].targetAverageValue == metadata.targetQueueLength
    {
      [ExternalSpec(QueueLengthMetricName, metadata.targetQueueLength)]
    }

    /** For jobs: one External metric, "visibleQueueLength", with the target queue length. */
    function GetMetricSpecForScalingJob(): (specs: seq<MetricSpec>)
      ensures |specs| == 1 && specs[0].metricType == ExternalMetricType
      ensures specs[0].metricName == VisibleQueueLengthMetricName
      ensures specs[0].targetAverageValue == metadata.targetQueueLength
    {
      [ExternalSpec(VisibleQueueLengthMetricName, metadata.targetQueueLength)]
    }

    /** The question `GetMetrics` puts to the service for a metric name it serves. */
    function MetricRequest(metricName: string): QueueRequest
      requires metricName == QueueLengthMetricName || metricName == VisibleQueueLengthMetricName
    {
      if metricName == QueueLengthMetricName then ApproximateLength(Queue())
      else VisibleLength(Queue(), PeekBound())
    }

    /**
     * Only "queueLength" and "visibleQueueLength" are served; the sample carries the
     * requested name and the fetched count. Any other name, or a failed fetch, gives an
     * empty list and an error.
     */
    function GetMetrics(metricName: string, service: QueueService, now: Timestamp): (r: Result<seq<MetricValue>, Error>)
      ensures metricName != QueueLengthMetricName && metricName != VisibleQueueLengthMetricName ==>
                r == Failure(NoMetricFound(metricName))
      ensures metricName == QueueLengthMetricName ==>
                (r.Success? <==> service(ApproximateLength(Queue())).Success?)
      ensures metricName == VisibleQueueLengthMetricName ==>
                (r.Success? <==> service(VisibleLength(Queue(), PeekBound())).Success?)
      ensures r.Success? ==>
                && (metricName == QueueLengthMetricName || metricName == VisibleQueueLengthMetricName)
                && |r.value| == 1
                && r.value[0].metricName == metricName
                && r.value[0].value == service(MetricRequest(metricName)).value
                && r.value[0].timestamp == now
      ensures r.Failure? && (metricName == QueueLengthMetricName || metricName == VisibleQueueLengthMetricName) ==>
                r.error == Backend(service(MetricRequest(metricName)).error)
    {
      if metricName != QueueLengthMetricName && metricName != VisibleQueueLengthMetricName then
        Failure(NoMetricFound(metricName))
      else
        match service(MetricRequest(metricName))
        case Failure(e) => Failure(Backend(e))
        case Success(queuelen) => Success([MetricValue(metricName, queuelen, now)])
    }
  }

  /** `NewAzureQueueScaler`: the scaler stores exactly the metadata and identity the resolver returned. */
  function NewAzureQueueScaler(resolvedEnv: Settings, metadata: Settings, authParams: Settings, podIdentity: string)
    : (r: Result<AzureQueueScaler, Error>)
    ensures var parsed := ParseAzureQueueMetadata(metadata, resolvedEnv, authParams, podIdentity);
            && (parsed.Failure? ==> r == Failure(ParsingAzureQueueMetadata(parsed.error)))
            && (parsed.Success? ==> r.Success? && r.value.metadata == parsed.value.0 && r.value.podIdentity == parsed.value.1)
  {
    match ParseAzureQueueMetadata(metadata, resolvedEnv, authParams, podIdentity)
    case Failure(e) => Failure(ParsingAzureQueueMetadata(e))
    case Success((meta, mode)) => Success(AzureQueueScaler(meta, mode))
  }

  /** The activity signal and the "queueLength" sample come from the same count. */
  lemma IsActiveAgreesWithQueueLength(s: AzureQueueScaler, service: QueueService, now: Timestamp)
    ensures s.IsActive(service).Success? <==> s.GetMetrics(QueueLengthMetricName, service, now).Success?
    ensures s.IsActive(service).Success? ==>
              (s.IsActive(service).value <==> s.GetMetrics(QueueLengthMetricName, service, now).value[0].value > 0)
  {
  }

  /**
   * The visible-length peek is bounded by the target queue length when it fits in 32 bits;
   * a larger target wraps around, so a target of 2^32 peeks for at most 0 messages.
   */
  lemma PeekBoundWraps(s: AzureQueueScaler)
    requires s.metadata.targetQueueLength == TwoTo32
    ensures s.PeekBound() == 0
  {
  }
}
