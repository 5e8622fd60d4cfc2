/**
 * The two records a scaler hands to the autoscaling controller: the metric
 * specification that goes into the Horizontal Pod Autoscaler, and a sampled
 * metric value.
 */
module Metrics {

  const ExternalMetricType := "External"

  /** Instants are opaque; the caller supplies "now" (Go's `metav1.Now()`). */
  type Timestamp = int

  /** A `v2beta1.MetricSpec` of type External with its `ExternalMetricSource`. */
  datatype MetricSpec = MetricSpec(metricType: string, metricName: string, targetAverageValue: int)

  /** An `external_metrics.ExternalMetricValue`. */
  datatype MetricValue = MetricValue(metricName: string, value: int, timestamp: Timestamp)

  function ExternalSpec(metricName: string, target: int): MetricSpec {
    MetricSpec(ExternalMetricType, metricName, target)
  }
}
