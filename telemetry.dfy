/** Optional values and success/failure results, used for the Go idioms
    "a nil consume function" and "a value plus an error return". */
module Wrappers {

  datatype Option<+T> = None | Some(value: T)

  datatype Result<+T, +E> = Success(value: T) | Failure(error: E)
}

/** The parts of the collector's pdata packages that the example connector
    touches: the three signal kinds and a batch of records of one kind.
    The inside of a record (span, metric, log record) is left opaque. */
module Pdata {

  /** The three telemetry signal kinds. */
  datatype Signal = Traces | Metrics | Logs

  /** One opaque record: a trace span, a metric or a log record. */
  datatype Record = Record(attributes: seq<(string, string)>)

  /** A batch of telemetry: `ptrace.Traces`, `pmetric.Metrics` or `plog.Logs`,
      told apart by `kind`. */
  datatype Batch = Batch(kind: Signal, records: seq<Record>)

  /** The batch's record count: `SpanCount()` for traces, `MetricCount()` for
      metrics, `LogRecordCount()` for logs. */
  function RecordCount(b: Batch): nat
  {
    |b.records|
  }
}

/** The consumer package: what a downstream consumer returns, a consume
    function, and the capability descriptor a consumer reports. */
module Consumer {
  import opened Pdata

  /** An error value returned by a consumer; its text is opaque. */
  datatype Error = Error(message: string)

  /** The `error` result of a consume call: nil (`Ok`) or an error. */
  datatype Outcome = Ok | Err(error: Error)

  /** `consumer.ConsumeTracesFunc`, `ConsumeMetricsFunc`, `ConsumeLogsFunc`:
      a function from a batch to the consume call's error result. The
      context argument is not modelled. */
  type ConsumeFunc = Batch -> Outcome

  /** `consumer.Capabilities`. */
  datatype Capabilities = Capabilities(mutatesData: bool)
}

/** The component package: component identity and creation settings. */
module Component {

  /** `component.ID`: a component type and an optional instance name. */
  datatype ID = ID(typ: string, name: string)

  /** `connector.CreateSettings`; only the ID is read by the example connector. */
  datatype CreateSettings = CreateSettings(id: ID)
}

/** The test-data generators `testdata.GenerateTraces`, `GenerateMetrics` and
    `GenerateLogs`. Their bodies are outside this model, so a generator is a
    parameter: any function from a signal kind and a count to records. */
module Testdata {
  import opened Pdata

  type Generator = (Signal, nat) -> seq<Record>

  /** The batch the generator for `kind` builds from the count `n`. */
  function Generate(gen: Generator, kind: Signal, n: nat): Batch
  {
    Batch(kind, gen(kind, n))
  }
}
