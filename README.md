# KEDA scalers: configuration resolution and metric protocol, in Dafny

This project models the core of two KEDA scalers, the MySQL scaler and the
Azure Storage queue scaler. A scaler is a plug-in that the autoscaling controller
polls to decide whether a workload is active and how far to scale it. The model
covers:

- how each scaler resolves its typed metadata from three string maps: the
  trigger metadata, the values resolved from the workload's environment, and the
  parameters of a trigger authentication. For the queue scaler a requested pod
  identity is a fourth input. The model keeps the exact precedence, defaults,
  order of checks (which decides which error is reported) and the legacy
  `useAAdPodIdentity` flag;
- Go's `strconv.Atoi` (64-bit `int`), which reads `queryValue` and `queueLength`,
  and the `int32(...)` conversion of the peek bound;
- the choice of MySQL connection string (verbatim, or built from discrete fields);
- the five operations of the `Scaler` interface for both kinds (`IsActive`,
  `GetMetrics`, `GetMetricSpecForScaling`, `GetMetricSpecForScalingJob`,
  `Close`), and scaler construction.

Backend I/O is an oracle passed in as a function. The MySQL scaler gets
`Connector` (open and ping) and `QueryRunner` (run the query, scan one integer).
The queue scaler gets `QueueService`, which answers `ApproximateLength` and
`VisibleLength(maxCount)` requests. With these oracles every poll is a pure
function of the stored metadata and the backend's answer. The MySQL scaler
is a class, because `Close` releases the database handle it owns. The queue
scaler is a datatype, because its fields never change after construction.

Files: `wrappers.dfy` (Option, Result), `strconv.dfy` (Atoi, decimal round trip,
int32 conversion), `config.dfy` (map lookups, first missing field), `errors.dfy`
(every error with its Go text), `metrics.dfy` (metric spec and sample records),
`mysql_scaler.dfy`, `azure_queue_scaler.dfy`, `scaler.dfy` (the interface as a
datatype over both kinds), `scenarios.dfy` (worked configurations).

## Where the code is weaker than one might expect

The model follows the code in each case below:

- The MySQL `query` only has to be present (pkg/scalers/mysql_scaler.go:60-64).
  The empty string is accepted (`Scenarios.EmptyQueryAccepted`).
- `queueLength` may be any 64-bit integer, including a negative one
  (pkg/scalers/azure_queue_scaler.go:55-63, `Scenarios.NegativeQueueLengthAccepted`).
- The MySQL scaler never reports "no connection setting given"
  (pkg/scalers/mysql_scaler.go:76-82). If `metadata["connectionString"]` names an
  environment entry that is missing, the connection string is `""`. No discrete
  field is required then, and the database is opened with a configuration whose
  fields are all empty and whose address is `":"` (pkg/scalers/mysql_scaler.go:120-135,
  `MySQL.ConnectionTargetPrecedence`). An auth parameter `connectionString` that
  is present but empty behaves the same way.
- The MySQL `GetMetrics` ignores the metric name and never reports "no metric
  found" (pkg/scalers/mysql_scaler.go:204-217, `MySQL.MetricNameIgnored`,
  `Scalers.UnknownMetricNames`); the queue scaler does
  (pkg/scalers/azure_queue_scaler.go:173-174).
- The peek bound for `visibleQueueLength` is the target queue length converted
  with `int32(...)` (pkg/scalers/azure_queue_scaler.go:171). A target outside the
  32-bit range wraps around (`AzureQueue.PeekBoundWraps`).

## Model

| member | source | states |
|---|---|---|
| `Strconv.Atoi` | pkg/scalers/mysql_scaler.go:67-71 | succeeds exactly when the text is an optional sign followed by at least one decimal digit and the value fits in 64 bits; the result is that signed value; an empty body is a syntax error |
| `Strconv.AtoiFormatInt` | pkg/scalers/azure_queue_scaler.go:56-62 | every 64-bit integer's decimal text parses back to that integer, so every integer target is accepted by the resolvers |
| `Strconv.ToInt32` | pkg/scalers/azure_queue_scaler.go:171 | the result is a 32-bit value congruent to the input modulo 2^32, equal to the input when that fits |
| `Errors.AtoiMessage` | pkg/scalers/mysql_scaler.go:67-69 | the text of an Atoi error starts with `strconv.Atoi: parsing "`, then names the rejected input, and ends with "invalid syntax" or "value out of range" according to the reason |
| `Errors.Message` | pkg/scalers/mysql_scaler.go:44-104 | a missing setting reads "no <setting> given" with the setting's name in the middle; a wrapping error ("error parsing MySQL metadata: ", "error parsing azure queue metadata: ", "error establishing MySQL connectionString: ", "error inspecting MySQL: ") ends with the full text of the error it wraps, and a backend error keeps the backend's text |
| `Errors.MissingMessageNamesField` | pkg/scalers/mysql_scaler.go:88-104 | the missing-setting text is "no " + setting + " given", and two such texts are equal only for the same setting |
| `Config.FirstMissing` | pkg/scalers/mysql_scaler.go:85-105 | gives the index of a key absent from the map such that every earlier key is present, and None exactly when all keys are present |
| `MySQL.ParseMySQLMetadata` | pkg/scalers/mysql_scaler.go:57-117 | a missing `query` is reported before anything else, and any present value is kept verbatim; a missing `queryValue` is reported next, then a bad one is reported with its Atoi error, and on success it holds the parsed value; an auth-parameter `connectionString` (even empty) decides success alone and is taken verbatim, with the discrete fields empty; otherwise a metadata `connectionString` is looked up in the environment, and a missing entry gives "" without error; otherwise the host, port, username and dbName values are copied and the password follows its precedence rule |
| `MySQL.MissingFieldReported` | pkg/scalers/mysql_scaler.go:60-105 | the resolver succeeds exactly when every required field (query, queryValue, and host/port/username/dbName unless a connection string is named) is present and queryValue parses; a missing-field error names the first missing field in check order; a bad queryValue is reported before any missing discrete field |
| `MySQL.MissingFieldMessage` | pkg/scalers/mysql_scaler.go:57-117 | every resolver error is a missing setting or a bad queryValue; a missing setting is one of query, queryValue, host, port, username, dbName, and its text is "no <setting> given" (e.g. "no host given") |
| `MySQL.MetadataToConnectionStr` | pkg/scalers/mysql_scaler.go:120-136 | a non-empty stored connection string is used verbatim; otherwise the configuration is user, password, network "tcp", address host + ":" + port, and database name |
| `MySQL.ConnectionTargetPrecedence` | pkg/scalers/mysql_scaler.go:76-135 | the database is opened with a non-empty auth-parameter connection string alone, else with a resolved non-empty environment entry, else with the discrete fields; a named source that yields "" falls back to an all-empty configuration with address ":" |
| `MySQL.MySQLScaler.constructor` | pkg/scalers/mysql_scaler.go:51-54 | a new scaler holds the given metadata and an open database handle |
| `MySQL.MySQLScaler.GetQueryResult` | pkg/scalers/mysql_scaler.go:175-183 | the stored query text is sent unchanged, and the scanned integer or the driver error is returned as it is |
| `MySQL.MySQLScaler.IsActive` | pkg/scalers/mysql_scaler.go:165-172 | succeeds exactly when the query succeeds, and is then true exactly when the value is positive; a failed query is returned as the error |
| `MySQL.MySQLScaler.GetMetricSpecForScaling` | pkg/scalers/mysql_scaler.go:186-196 | exactly one External metric named "MySQLQueryValue" whose target is queryValue |
| `MySQL.MySQLScaler.GetMetricSpecForScalingJob` | pkg/scalers/mysql_scaler.go:198-201 | no metric: jobs are not supported |
| `MySQL.MySQLScaler.GetMetrics` | pkg/scalers/mysql_scaler.go:204-217 | for any metric name it succeeds exactly when the query does, with one sample named "MySQLQueryValue" that carries the query value and the call time; a failure is the query error wrapped as "error inspecting MySQL" |
| `MySQL.MySQLScaler.Close` | pkg/scalers/mysql_scaler.go:155-162 | the handle is released, and the driver's close error is returned unchanged, or nothing |
| `MySQL.MetricNameIgnored` | pkg/scalers/mysql_scaler.go:204-217 | any two metric names give the same answer |
| `MySQL.IsActiveAgreesWithMetrics` | pkg/scalers/mysql_scaler.go:165-217 | for the same query answer, IsActive and GetMetrics succeed together, and IsActive is true exactly when the sample is positive (in Go each call sends its own query) |
| `MySQL.NewMySQLScaler` | pkg/scalers/mysql_scaler.go:41-55 | a metadata error is wrapped as "error parsing MySQL metadata"; an open or ping failure on the chosen connection string is wrapped as "error establishing MySQL connectionString"; otherwise a fresh, open scaler holds exactly the resolved metadata |
| `AzureQueue.EffectiveIdentity` | pkg/scalers/azure_queue_scaler.go:71-76 | an explicitly requested identity is never changed; the result is "azure" exactly when "azure" was requested, or nothing was requested and the legacy flag is "true" |
| `AzureQueue.ParseAzureQueueMetadata` | pkg/scalers/azure_queue_scaler.go:51-111 | a bad queueLength is reported first, an absent one defaults to 5, and any integer is kept; next, a missing or empty queueName is reported; the returned identity is the effective one and is supported, and an unsupported one is reported by name; under "" or "none" a non-empty auth-parameter connection wins, else the metadata-named or default environment entry must exist (it may be empty), else "no connection setting given"; under "azure" a non-empty accountName is required and the connection stays empty; the useAAdPodIdentity field is never set |
| `AzureQueue.ParseSucceedsIff` | pkg/scalers/azure_queue_scaler.go:51-111 | the resolver succeeds exactly when queueLength parses, the fields the effective identity requires are non-empty, the identity is supported, and the connection resolves under a connection-string identity; a missing-field error names the first missing field |
| `AzureQueue.MissingFieldMessage` | pkg/scalers/azure_queue_scaler.go:51-111 | every resolver error is a bad queueLength, a missing setting or an unsupported identity; a missing setting is one of queueName, connection setting, accountName, and its text is "no <setting> given" (e.g. "no connection setting given") |
| `AzureQueue.AzureQueueScaler.PeekBound` | pkg/scalers/azure_queue_scaler.go:171 | the peek bound equals the target when the target fits in 32 bits, and is congruent to it modulo 2^32 otherwise |
| `AzureQueue.AzureQueueScaler.IsActive` | pkg/scalers/azure_queue_scaler.go:114-129 | succeeds exactly when the approximate-length fetch for the stored queue and identity succeeds, and is then true exactly when the length is positive; a failed fetch is returned as the error |
| `AzureQueue.AzureQueueScaler.Close` | pkg/scalers/azure_queue_scaler.go:131-133 | always succeeds |
| `AzureQueue.AzureQueueScaler.GetMetricSpecForScaling` | pkg/scalers/azure_queue_scaler.go:135-140 | exactly one External metric named "queueLength" whose target is the target queue length |
| `AzureQueue.AzureQueueScaler.GetMetricSpecForScalingJob` | pkg/scalers/azure_queue_scaler.go:142-147 | exactly one External metric named "visibleQueueLength" whose target is the target queue length |
| `AzureQueue.AzureQueueScaler.GetMetrics` | pkg/scalers/azure_queue_scaler.go:150-189 | any name other than "queueLength" and "visibleQueueLength" gives "no metric found"; "queueLength" asks for the approximate length; "visibleQueueLength" asks for a peek bounded by the int32 target; a success is one sample with the requested name, the fetched count and the call time; a failed fetch is returned as the error |
| `AzureQueue.NewAzureQueueScaler` | pkg/scalers/azure_queue_scaler.go:39-49 | a metadata error is wrapped as "error parsing azure queue metadata"; otherwise the scaler stores exactly the metadata and the effective identity the resolver returned |
| `AzureQueue.IsActiveAgreesWithQueueLength` | pkg/scalers/azure_queue_scaler.go:114-189 | for the same service answer, IsActive and the "queueLength" metric succeed together, and IsActive is true exactly when that sample is positive (in Go each call sends its own request) |
| `AzureQueue.PeekBoundWraps` | pkg/scalers/azure_queue_scaler.go:171 | a target of 2^32 gives a peek bound of 0 |
| `Scalers.IsActive` | pkg/scalers/scaler.go:23 | for either kind, succeeds exactly when the polled value is fetched, and is then true exactly when it is positive; a failure is never reported as false |
| `Scalers.GetMetrics` | pkg/scalers/scaler.go:14 | a success carries exactly one sample, stamped with the call time |
| `Scalers.GetMetricSpecForScaling` | pkg/scalers/scaler.go:18 | exactly one External metric, named after the kind's primary metric |
| `Scalers.GetMetricSpecForScalingJob` | pkg/scalers/scaler.go:21 | at most one External metric, and none exactly for the MySQL kind |
| `Scalers.Close` | pkg/scalers/scaler.go:26 | the MySQL kind releases its handle and returns the driver's error; the queue kind always succeeds |
| `Scalers.AdvertisedMetricsAreServed` | pkg/scalers/scaler.go:16-21 | every metric named in either spec list is served by GetMetrics under that name, and fails only on a backend error |
| `Scalers.IsActiveMatchesPrimaryMetric` | pkg/scalers/scaler.go:14-23 | for the same backend answer, IsActive agrees with the sample of the kind's primary metric |
| `Scalers.UnknownMetricNames` | pkg/scalers/azure_queue_scaler.go:173-174 | an unknown name is "no metric found" for the queue kind, but the MySQL kind answers it with its sample |
| `Scenarios.QueueWithDefaultConnection` | pkg/scalers/azure_queue_scaler.go:53-98 | queueName "q1" with AzureWebJobsStorage "conn" in the environment resolves to target 5, connection "conn", identity "" |
| `Scenarios.QueueWithPodIdentity` | pkg/scalers/azure_queue_scaler.go:99-105 | identity "azure" with accountName "acct" resolves without any connection string |
| `Scenarios.LegacyFlag` | pkg/scalers/azure_queue_scaler.go:72-76 | the flag "true" turns "" into "azure", leaves "none" alone, and any other value of the flag leaves an unrequested identity "" |
| `Scenarios.NegativeQueueLengthAccepted` | pkg/scalers/azure_queue_scaler.go:55-63 | queueLength "-3" is accepted as -3 |
| `Scenarios.QueryWithoutConnection` | pkg/scalers/mysql_scaler.go:83-89 | a query and queryValue "10" without any connection setting gives "no host given" |
| `Scenarios.EmptyQueryAccepted` | pkg/scalers/mysql_scaler.go:60-64 | an empty query is accepted verbatim |
| `Scenarios.EmptyQueueNameRejected` | pkg/scalers/azure_queue_scaler.go:65-69 | an empty queueName gives "no queueName given" |
| `Scenarios.QueryReturning42` | pkg/scalers/mysql_scaler.go:165-217 | a query value of 42 gives one sample of 42 for any name, and the scaler is active |
| `Scenarios.EmptyQueue` | pkg/scalers/azure_queue_scaler.go:114-189 | a queue of length 0 with target 5 is inactive, peeks with bound 5, and reports a visible length of 0 |

## Left out

- Backend I/O is given as oracles. This covers `sql.Open`, `db.Ping`,
  `QueryRow(...).Scan` and closing the database in `pkg/scalers/mysql_scaler.go`.
  It also covers everything in `pkg/scalers/azure_queue.go`: building shared-key or
  token credentials, fetching the pod-identity token, parsing the storage
  connection string, building the queue URL, `Create`, `GetProperties` and `Peek`.
  So the model does not capture that the peeked count never exceeds its bound, nor
  the account name placed in the endpoint URL.
- `FormatDSN` belongs to the MySQL driver library. Its text is kept symbolic as
  `FormatDSN(DsnConfig(...))`.
- The quoting `strconv` applies to the input inside an Atoi error message is not
  modelled. The message shows the input between plain double quotes.
- Logging (`mySQLLog`, `azureQueueLog`) has no behaviour and is left out.
  `context.Context` cancellation and the unused `labels.Selector` are left out too.
  Concurrent polling is also out: every operation here is a single call.
- `IsActive` and `GetMetrics` each send their own request to the backend, and the
  backend may answer the two differently. The agreement lemmas
  (`MySQL.IsActiveAgreesWithMetrics`, `AzureQueue.IsActiveAgreesWithQueueLength`,
  `Scalers.IsActiveMatchesPrimaryMetric`) hold for one shared answer only.
- `resource.Quantity` values are integers, and `metav1.Now()` is a timestamp
  the caller passes in.
- `Scalers.GetMetrics`: states only the shape common to both kinds. The values
  are stated by `MySQL.MySQLScaler.GetMetrics` and
  `AzureQueue.AzureQueueScaler.GetMetrics`, to which it dispatches.
- `MySQL.MySQLScaler.Close`: models only the release of the handle. Calling it
  twice is not excluded, and what a closed handle answers to later queries is up
  to the `QueryRunner` oracle.
