/**
 * Every Go `error` the two scalers can return, as one datatype, with the text
 * Go's `Error()` gives for it.
 */
module Errors {
  import opened Strconv

  /** An error coming from the database driver or the storage service; its text is theirs. */
  datatype BackendError = BackendError(message: string)

  datatype Error =
      /** "no <what> given": a required setting is absent. */
    | Missing(what: string)
      /** `queryValue` is present but `strconv.Atoi` rejects it. */
    | QueryValueParsing(input: string, kind: NumErrorKind)
      /** `queueLength` is present but `strconv.Atoi` rejects it. */
    | QueueLengthParsing(input: string, kind: NumErrorKind)
      /** The effective pod identity is none of "", "none", "azure". */
    | PodIdentityNotSupported(mode: string)
      /** `NewMySQLScaler` wraps a metadata error. */
    | ParsingMySQLMetadata(inner: Error)
      /** `NewMySQLScaler` wraps a failure to open or ping the database. */
    | EstablishingMySQLConnection(cause: BackendError)
      /** `NewAzureQueueScaler` wraps a metadata error. */
    | ParsingAzureQueueMetadata(inner: Error)
      /** The MySQL `GetMetrics` wraps a failed query. */
    | InspectingMySQL(cause: BackendError)
      /** The queue `GetMetrics` was asked for a metric it does not serve. */
    | NoMetricFound(metricName: string)
      /** A backend error passed on unchanged. */
    | Backend(cause: BackendError)

  /** The text of a `*strconv.NumError` before the quoted input. */
  const AtoiPrefix := "strconv.Atoi: parsing \""

  /** The text of a `*strconv.NumError` returned by `strconv.Atoi(input)`: it names the input and the reason. */
  function AtoiMessage(input: string, cause: NumErrorKind): (m: string)
    ensures |m| > |AtoiPrefix| + |input|
    ensures m[..|AtoiPrefix|] == AtoiPrefix && m[|AtoiPrefix|..|AtoiPrefix| + |input|] == input
    ensures var reason := if cause == InvalidSyntax then "invalid syntax" else "value out of range";
            m[|m| - |reason|..] == reason
  {
    AtoiPrefix + input + "\": "
      + (match cause
         case InvalidSyntax => "invalid syntax"
         case OutOfRange => "value out of range")
  }

  /** The text `Error()` gives; a wrapping error ends with the text of the error it wraps. */
  function Message(e: Error): (m: string)
    ensures e.Missing? ==> |m| == |e.what| + 9 && m[3..|m| - 6] == e.what
    ensures e.ParsingMySQLMetadata? || e.ParsingAzureQueueMetadata? ==>
              |m| > |Message(e.inner)| && m[|m| - |Message(e.inner)|..] == Message(e.inner)
    ensures e.EstablishingMySQLConnection? || e.InspectingMySQL? || e.Backend? ==>
              |m| >= |e.cause.message| && m[|m| - |e.cause.message|..] == e.cause.message
  {
    match e
    case Missing(what) => "no " + what + " given"
    case QueryValueParsing(input, cause) => "queryValue parsing error " + AtoiMessage(input, cause)
    case QueueLengthParsing(input, cause) =>
      "Error parsing azure queue metadata queueLength: " + AtoiMessage(input, cause)
    case PodIdentityNotSupported(mode) => "pod identity " + mode + " not supported for azure storage queues"
    case ParsingMySQLMetadata(inner) => "error parsing MySQL metadata: " + Message(inner)
    case EstablishingMySQLConnection(cause) => "error establishing MySQL connectionString: " + cause.message
    case ParsingAzureQueueMetadata(inner) => "error parsing azure queue metadata: " + Message(inner)
    case InspectingMySQL(cause) => "error inspecting MySQL: " + cause.message
    case NoMetricFound(name) => "no metric found with name: " + name
    case Backend(cause) => cause.message
  }

  /** "no <what> given" names the missing setting: two such texts are equal only for the same setting. */
  lemma {:induction false} MissingMessageNamesField(a: string, b: string)
    ensures Message(Missing(a)) == "no " + a + " given"
    ensures Message(Missing(a)) == Message(Missing(b)) ==> a == b
  {
    var ma, mb := Message(Missing(a)), Message(Missing(b));
    if ma == mb {
      assert a == ma[3..|ma| - 6] == mb[3..|mb| - 6] == b;
    }
  }
}
