/**
 * The MySQL scaler: the value of an operator-supplied SQL query drives scaling.
 * Reading the trigger settings is a pure function of three maps; the database
 * itself is an oracle the model is handed (`Connector` for open-and-ping,
 * `QueryRunner` for running the query and scanning its single integer).
 */
module MySQL {
  import opened Wrappers
  import opened Strconv
  import opened Config
  import opened Errors
  import opened Metrics

  const MySQLMetricName := "MySQLQueryValue"
  const DefaultMySQLPassword := ""

  datatype MySQLMetadata = MySQLMetadata(
    connectionString: string,
    username: string,
    password: string,
    host: string,
    port: string,
    dbName: string,
    query: string,
    queryValue: Int64)

  /** The fields of a `mysql.Config` that `metadataToConnectionStr` sets. */
  datatype DsnConfig = DsnConfig(user: string, passwd: string, net: string, addr: string, dbName: string)

  /**
   * What is handed to `sql.Open`: a connection string taken verbatim, or the text
   * `FormatDSN` renders for a configuration. That text comes from the driver
   * library and is kept symbolic.
   */
  datatype ConnectionString = Verbatim(text: string) | FormatDSN(config: DsnConfig)

  /** `sql.Open` followed by `db.Ping`: `None` when both succeed. */
  type Connector = ConnectionString -> Option<BackendError>

  /** `connection.QueryRow(query).Scan(&value)` into a Go `int`. */
  type QueryRunner = string -> Result<Int64, BackendError>

  /** True when neither source of a connection string is named, so the discrete fields are read. */
  predicate UsesDiscreteFields(metadata: Settings, authParams: Settings) {
    "connectionString" !in authParams && "connectionString" !in metadata
  }

  /** The settings `parseMySQLMetadata` insists on, in the order it checks them. */
  function RequiredFields(metadata: Settings, authParams: Settings): seq<string> {
    ["query", "queryValue"]
      + if UsesDiscreteFields(metadata, authParams) then ["host", "port", "username", "dbName"] else []
  }

  /** How many of the required fields are checked before `queryValue` is parsed. */
  const CheckedBeforeParsing := 2

  predicate QueryValueParses(metadata: Settings) {
    "queryValue" in metadata && Atoi(metadata["queryValue"]).Success?
  }

  /** The password rule: an auth parameter wins; else a non-empty metadata entry names an environment entry. */
  function ResolvePassword(resolvedEnv: Settings, metadata: Settings, authParams: Settings): string {
    if "password" in authParams then authParams["password"]
    else if Given(metadata, "password") && metadata["password"] in resolvedEnv then resolvedEnv[metadata["password"]]
    else DefaultMySQLPassword
  }

  predicate DiscreteFieldsEmpty(meta: MySQLMetadata) {
    meta.host == "" && meta.port == "" && meta.username == "" && meta.dbName == "" && meta.password == ""
  }

  /** `parseMySQLMetadata(resolvedEnv, metadata, authParams)`. */
  function ParseMySQLMetadata(resolvedEnv: Settings, metadata: Settings, authParams: Settings)
    : (r: Result<MySQLMetadata, Error>)
    // `query` is checked before anything else, and only for presence
    ensures "query" !in metadata ==> r == Failure(Missing("query"))
    ensures r.Success? ==> r.value.query == metadata["query"]
    // `queryValue` is required and must be a decimal integer
    ensures "query" in metadata && "queryValue" !in metadata ==> r == Failure(Missing("queryValue"))
    ensures "query" in metadata && "queryValue" in metadata && Atoi(metadata["queryValue"]).Failure? ==>
              r == Failure(QueryValueParsing(metadata["queryValue"], Atoi(metadata["queryValue"]).error))
    ensures r.Success? ==> Atoi(metadata["queryValue"]) == Success(r.value.queryValue)
    // an auth parameter, even empty, is taken verbatim and nothing else is consulted
    ensures "connectionString" in authParams ==>
              ("query" in metadata && QueryValueParses(metadata) <==> r.Success?)
    ensures r.Success? && "connectionString" in authParams ==>
              r.value.connectionString == authParams["connectionString"] && DiscreteFieldsEmpty(r.value)
    // otherwise a metadata entry names an environment entry; a name that does not resolve
    // leaves the connection string empty without an error
    ensures r.Success? && "connectionString" !in authParams && "connectionString" in metadata ==>
              DiscreteFieldsEmpty(r.value)
              && r.value.connectionString ==
                   (if metadata["connectionString"] in resolvedEnv then resolvedEnv[metadata["connectionString"]] else "")
    // otherwise the discrete fields are copied and the password is resolved
    ensures r.Success? && UsesDiscreteFields(metadata, authParams) ==>
              && r.value.connectionString == ""
              && "host" in metadata && "port" in metadata && "username" in metadata && "dbName" in metadata
              && r.value.host == metadata["host"] && r.value.port == metadata["port"]
              && r.value.username == metadata["username"] && r.value.dbName == metadata["dbName"]
              && r.value.password == ResolvePassword(resolvedEnv, metadata, authParams)
  {
    if "query" !in metadata then Failure(Missing("query"))
    else if "queryValue" !in metadata then Failure(Missing("queryValue"))
    else
      match Atoi(metadata["queryValue"])
      case Failure(cause) => Failure(QueryValueParsing(metadata["queryValue"], cause))
      case Success(queryValue) =>
        var meta := MySQLMetadata("", "", DefaultMySQLPassword, "", "", "", metadata["query"], queryValue);
        if "connectionString" in authParams then
          Success(meta.(connectionString := authParams["connectionString"]))
        else if "connectionString" in metadata then
          var hostSetting := metadata["connectionString"];
          if hostSetting in resolvedEnv then Success(meta.(connectionString := resolvedEnv[hostSetting]))
          else Success(meta)
        else if "host" !in metadata then Failure(Missing("host"))
        else if "port" !in metadata then Failure(Missing("port"))
        else if "username" !in metadata then Failure(Missing("username"))
        else if "dbName" !in metadata then Failure(Missing("dbName"))
        else
          Success(meta.(host := metadata["host"], port := metadata["port"],
                        username := metadata["username"], dbName := metadata["dbName"],
                        password := ResolvePassword(resolvedEnv, metadata, authParams)))
  }

  /**
   * The resolver succeeds exactly when every required field is present and `queryValue`
   * parses; when a field is missing, the error names the first missing one, unless
   * `queryValue` is malformed and that is reported first.
   */
  lemma MissingFieldReported(resolvedEnv: Settings, metadata: Settings, authParams: Settings)
    ensures var r := ParseMySQLMetadata(resolvedEnv, metadata, authParams);
            var fields := RequiredFields(metadata, authParams);
            var first := FirstMissing(fields, metadata);
            && (r.Success? <==> first.None? && QueryValueParses(metadata))
            && (r.Failure? && r.error.Missing? <==>
                  first.Some? && (first.value < CheckedBeforeParsing || QueryValueParses(metadata)))
            && (r.Failure? && r.error.Missing? ==> r.error.what == fields[first.value])
  {
    var r := ParseMySQLMetadata(resolvedEnv, metadata, authParams);
    var fields := RequiredFields(metadata, authParams);
    var first := FirstMissing(fields, metadata);
    assert fields[0] == "query" && fields[1] == "queryValue";
    if UsesDiscreteFields(metadata, authParams) {
      assert fields[2] == "host" && fields[3] == "port" && fields[4] == "username" && fields[5] == "dbName";
      assert |fields| == 6;
    } else {
      assert |fields| == 2;
    }
    if first.Some? {
      var i := first.value;
      assert fields[i] !in metadata;
    }
  }

  /**
   * Every error the resolver reports is a missing setting or a bad `queryValue`, and a
   * missing setting reads as one of the six "no <field> given" texts.
   */
  lemma MissingFieldMessage(resolvedEnv: Settings, metadata: Settings, authParams: Settings)
    ensures var r := ParseMySQLMetadata(resolvedEnv, metadata, authParams);
            r.Failure? ==> r.error.Missing? || r.error.QueryValueParsing?
    ensures var r := ParseMySQLMetadata(resolvedEnv, metadata, authParams);
            r.Failure? && r.error.Missing? ==>
              r.error.what in ["query", "queryValue", "host", "port", "username", "dbName"]
              && Message(r.error) == "no " + r.error.what + " given"
  {
    MissingFieldReported(resolvedEnv, metadata, authParams);
    var r := ParseMySQLMetadata(resolvedEnv, metadata, authParams);
    if r.Failure? && r.error.Missing? {
      MissingMessageNamesField(r.error.what, r.error.what);
    }
  }

  /** `metadataToConnectionStr(meta)`. */
  function MetadataToConnectionStr(meta: MySQLMetadata): (c: ConnectionString)
    ensures meta.connectionString != "" ==> c == Verbatim(meta.connectionString)
    ensures meta.connectionString == "" ==>
              c == FormatDSN(DsnConfig(meta.username, meta.password, "tcp", meta.host + ":" + meta.port, meta.dbName))
  {
    if meta.connectionString != "" then Verbatim(meta.connectionString)
    else FormatDSN(DsnConfig(meta.username, meta.password, "tcp", meta.host + ":" + meta.port, meta.dbName))
  }

  /**
   * What the database is opened with, from the three maps: a non-empty auth parameter
   * exclusively, then a resolved non-empty environment entry, then the discrete fields.
   * A connection-string source that is named but yields "" falls through to a
   * configuration whose fields are all empty and whose address is ":".
   */
  lemma ConnectionTargetPrecedence(resolvedEnv: Settings, metadata: Settings, authParams: Settings)
    requires ParseMySQLMetadata(resolvedEnv, metadata, authParams).Success?
    ensures var c := MetadataToConnectionStr(ParseMySQLMetadata(resolvedEnv, metadata, authParams).value);
            && (Given(authParams, "connectionString") ==> c == Verbatim(authParams["connectionString"]))
            && ("connectionString" !in authParams && "connectionString" in metadata
                && Given(resolvedEnv, metadata["connectionString"]) ==>
                  c == Verbatim(resolvedEnv[metadata["connectionString"]]))
            && (UsesDiscreteFields(metadata, authParams) ==>
                  c == FormatDSN(DsnConfig(metadata["username"], ResolvePassword(resolvedEnv, metadata, authParams),
                                           "tcp", metadata["host"] + ":" + metadata["port"], metadata["dbName"])))
            && (!UsesDiscreteFields(metadata, authParams) && c.FormatDSN? ==>
                  c == FormatDSN(DsnConfig("", "", "tcp", ":", "")))
  {
  }

  /** A scaler holds its metadata and an open `*sql.DB`, which `Close` releases. */
  class MySQLScaler {
    const metadata: MySQLMetadata
    /** Whether `Close` has released the database handle. */
    var closed: bool

    constructor (meta: MySQLMetadata)
      ensures metadata == meta && !closed
    {
      metadata := meta;
      closed := false;
    }

    /** `getQueryResult`: the configured query, run verbatim; the scanned value or the driver error comes back as is. */
    function GetQueryResult(runQuery: QueryRunner): (r: Result<Int64, BackendError>)
      ensures r == runQuery(metadata.query)
    {
      runQuery(metadata.query)
    }

    /** Active exactly when the query returns a positive value; a failed query is an error, never `false`. */
    function IsActive(runQuery: QueryRunner): (r: Result<bool, Error>)
      ensures r.Success? <==> runQuery(metadata.query).Success?
      ensures r.Success? ==> (r.value <==> runQuery(metadata.query).value > 0)
      ensures r.Failure? ==> r.error == Backend(runQuery(metadata.query).error)
    {
      match GetQueryResult(runQuery)
      case Failure(e) => Failure(Backend(e))
      case Success(messages) => Success(messages > 0)
    }

    /** One External metric named "MySQLQueryValue" whose target is `queryValue`. */
    function GetMetricSpecForScaling(): (specs: seq<MetricSpec>)
      ensures |specs| == 1
      ensures specs[0].metricType == ExternalMetricType
      ensures specs[0].metricName == MySQLMetricName && specs[0].targetAverageValue == metadata.queryValue
    {
      [ExternalSpec(MySQLMetricName, metadata.queryValue)]
    }

    /** Scaling jobs is not supported: no metric. */
    function GetMetricSpecForScalingJob(): (specs: seq<MetricSpec>)
      ensures specs == []
    {
      []
    }

    /**
     * Whatever metric name is asked for, one sample named "MySQLQueryValue" carrying the
     * query's value; a failed query gives an empty list and a wrapped error.
     */
    function GetMetrics(metricName: string, runQuery: QueryRunner, now: Timestamp): (r: Result<seq<MetricValue>, Error>)
      ensures r.Success? <==> runQuery(metadata.query).Success?
      ensures r.Success? ==>
                |r.value| == 1 && r.value[0].metricName == MySQLMetricName
                && r.value[0].value == runQuery(metadata.query).value && r.value[0].timestamp == now
      ensures r.Failure? ==> r.error == InspectingMySQL(runQuery(metadata.query).error)
    {
      match GetQueryResult(runQuery)
      case Failure(e) => Failure(InspectingMySQL(e))
      case Success(num) => Success([MetricValue(MySQLMetricName, num, now)])
    }

    /** Releases the database handle and passes on the driver's error, if any. */
    method Close(closeError: Option<BackendError>) returns (err: Option<Error>)
      modifies this
      ensures closed
      ensures closeError.None? ==> err.None?
      ensures closeError.Some? ==> err == Some(Backend(closeError.value))
    {
      closed := true;
      match closeError
      case None => err := None;
      case Some(e) => err := Some(Backend(e));
    }
  }

  /** The metric name is never looked at: any two names give the same answer. */
  lemma MetricNameIgnored(s: MySQLScaler, name1: string, name2: string, runQuery: QueryRunner, now: Timestamp)
    ensures s.GetMetrics(name1, runQuery, now) == s.GetMetrics(name2, runQuery, now)
  {
  }

  /** The activity signal and the metric sample come from the same query value. */
  lemma IsActiveAgreesWithMetrics(s: MySQLScaler, name: string, runQuery: QueryRunner, now: Timestamp)
    ensures s.IsActive(runQuery).Success? <==> s.GetMetrics(name, runQuery, now).Success?
    ensures s.IsActive(runQuery).Success? ==>
              (s.IsActive(runQuery).value <==> s.GetMetrics(name, runQuery, now).value[0].value > 0)
  {
  }

  /** `NewMySQLScaler`: resolve the metadata, then open and ping the database. */
  method NewMySQLScaler(resolvedEnv: Settings, metadata: Settings, authParams: Settings, connect: Connector)
    returns (r: Result<MySQLScaler, Error>)
    ensures var parsed := ParseMySQLMetadata(resolvedEnv, metadata, authParams);
            && (parsed.Failure? ==> r == Failure(ParsingMySQLMetadata(parsed.error)))
            && (parsed.Success? && connect(MetadataToConnectionStr(parsed.value)).Some? ==>
                  r == Failure(EstablishingMySQLConnection(connect(MetadataToConnectionStr(parsed.value)).value)))
            && (parsed.Success? && connect(MetadataToConnectionStr(parsed.value)).None? ==>
                  r.Success? && fresh(r.value) && r.value.metadata == parsed.value && !r.value.closed)
  {
    match ParseMySQLMetadata(resolvedEnv, metadata, authParams)
    case Failure(e) =>
      r := Failure(ParsingMySQLMetadata(e));
    case Success(meta) =>
      match connect(MetadataToConnectionStr(meta))
      case Some(e) =>
        r := Failure(EstablishingMySQLConnection(e));
      case None =>
        var scaler := new MySQLScaler(meta);
        r := Success(scaler);
  }
}
