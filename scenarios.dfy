/** Worked configurations and polls, stated as lemmas about the model. */
module Scenarios {
  import opened Wrappers
  import opened Strconv
  import opened Errors
  import opened Metrics
  import MySQL
  import AzureQueue

  /** A queue name and the default storage setting: connection-string identity, target length 5. */
  lemma QueueWithDefaultConnection()
    ensures var r := AzureQueue.ParseAzureQueueMetadata(
                       map["queueName" := "q1"], map["AzureWebJobsStorage" := "conn"], map[], "");
            r == Success((AzureQueue.AzureQueueMetadata(5, "q1", "conn", false, ""), ""))
  {
  }

  /** Requested "azure" identity with an account name: no connection string is needed. */
  lemma QueueWithPodIdentity()
    ensures var r := AzureQueue.ParseAzureQueueMetadata(
                       map["queueName" := "q1", "accountName" := "acct"], map[], map[], "azure");
            r == Success((AzureQueue.AzureQueueMetadata(5, "q1", "", false, "acct"), "azure"))
  {
  }

  /**
   * The legacy flag "true" turns an unrequested identity into "azure", but does not
   * override "none"; any other value of the flag leaves the identity alone.
   */
  lemma LegacyFlag(v: string)
    ensures AzureQueue.EffectiveIdentity(map["useAAdPodIdentity" := "true"], "") == "azure"
    ensures AzureQueue.EffectiveIdentity(map["useAAdPodIdentity" := "true"], "none") == "none"
    ensures v != "true" ==> AzureQueue.EffectiveIdentity(map["useAAdPodIdentity" := v], "") == ""
  {
  }

  /** A negative target length is accepted as it is. */
  lemma NegativeQueueLengthAccepted()
    ensures var r := AzureQueue.ParseAzureQueueMetadata(
                       map["queueLength" := "-3", "queueName" := "q1"], map["AzureWebJobsStorage" := "conn"], map[], "");
            r.Success? && r.value.0.targetQueueLength == -3
  {
  }

  /** A query and its target alone: the discrete fields are required, and `host` is reported first. */
  lemma QueryWithoutConnection()
    ensures MySQL.ParseMySQLMetadata(map[], map["query" := "SELECT COUNT(*) FROM t", "queryValue" := "10"], map[])
            == Failure(Missing("host"))
  {
    assert DigitsValue("10") == 10 by {
      assert "10"[..1] == "1";
      assert "1"[..0] == "";
    }
  }

  /** The query is only required to be present: an empty one is accepted. */
  lemma EmptyQueryAccepted()
    ensures var r := MySQL.ParseMySQLMetadata(map[], map["query" := "", "queryValue" := "1"], map["connectionString" := "dsn"]);
            r.Success? && r.value.query == "" && r.value.connectionString == "dsn"
  {
  }

  /** The queue name, unlike the MySQL query, must be non-empty. */
  lemma EmptyQueueNameRejected()
    ensures AzureQueue.ParseAzureQueueMetadata(map["queueName" := ""], map["AzureWebJobsStorage" := "conn"], map[], "")
            == Failure(Missing("queueName"))
  {
  }

  /** A query returning 42: for any metric name, one "MySQLQueryValue" sample of 42, and the scaler is active. */
  lemma QueryReturning42(s: MySQL.MySQLScaler, name: string, now: Timestamp)
    ensures var runQuery: MySQL.QueryRunner := q => Success(42);
            && s.GetMetrics(name, runQuery, now) == Success([MetricValue("MySQLQueryValue", 42, now)])
            && s.IsActive(runQuery) == Success(true)
  {
  }

  /** An empty queue: inactive, and a peek bounded by 5 sees no messages. */
  lemma EmptyQueue(s: AzureQueue.AzureQueueScaler, now: Timestamp)
    requires s.metadata.targetQueueLength == 5
    ensures var service: AzureQueue.QueueService := q => Success(0);
            && s.IsActive(service) == Success(false)
            && s.MetricRequest("visibleQueueLength") == AzureQueue.VisibleLength(s.Queue(), 5)
            && s.GetMetrics("visibleQueueLength", service, now) == Success([MetricValue("visibleQueueLength", 0, now)])
  {
  }
}
