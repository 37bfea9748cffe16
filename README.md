# Example connector routing matrix

This project models the example connector of the OpenTelemetry Collector's
service test components (`service/internal/testcomponents/example_connector.go`).
A connector bridges a pipeline of one signal kind (traces, metrics or logs)
into a pipeline of a possibly different kind. The file registers two
factories:

- `exampleconnector` registers all nine (source, destination) pairs.
- `mockforward` registers only the three same-kind pairs.

Each pair has its own constructor. A constructor builds an `ExampleConnector`
that holds exactly one consume function, the one for the source kind.

- A same-kind connector reuses the downstream consumer's own consume function.
- A cross-kind connector passes one number to the test-data generator for
  the destination kind: the record count of its input. It hands the
  generated batch downstream and returns the downstream result unchanged.

The component-wide flag `mutatesData` is fixed at construction. It is true
exactly when the component ID's name is `mutate`, and `Capabilities()`
reports it.

Files:

- `telemetry.dfy` holds the vocabulary the connector relies on. It has these
  modules:
  - `Wrappers`: `Option` and `Result`.
  - `Pdata`: signal kinds, batches and record counts.
  - `Consumer`: errors, consume results, consume functions and capabilities.
  - `Component`: component IDs and creation settings.
  - `Testdata`: the generators, passed in as a parameter.
- `example_connector.dfy` (module `TestComponents`) holds the model of the
  source file itself: the factories, the constructors, the connector value,
  its entry points, its capability, and the lemmas about them.

Modelling choices:

- A batch is its signal kind plus a sequence of opaque records. Its record
  count (`SpanCount`, `MetricCount`, `LogRecordCount`) is the length of that
  sequence.
- A downstream consumer is a total function from a batch to `Ok` or
  `Err(error)`.
- The generators `testdata.GenerateTraces`, `GenerateMetrics` and
  `GenerateLogs` are an arbitrary parameter `gen` from a kind and a count to
  records. Every property is therefore proved for every possible generator.
- The nine Go constructors are one function, `CreateExample(src, dst, ...)`.
  It has one case per pair, each building the same struct literal as the Go
  constructor for that pair.
- The configuration argument is `component.Config`, which is any value in Go.
  So `CreateExample` is generic in the configuration type.
- `Consume(c, b)` stands for calling the connector's `ConsumeTraces`,
  `ConsumeMetrics` or `ConsumeLogs`, chosen by the kind of `b`.
  - It returns `None` when that consume function is unset. In Go that call
    hits a nil function.
  - It returns `Some(result)` otherwise.

Two points where the code may not do what one would expect:

- One might expect `mutatesData` to say whether a forwarding path alters
  its input. The code sets it from the component name alone
  (`ID.Name() == "mutate"`), whatever the pair, and no forwarding path
  alters its input.
- Nothing in this file rejects an unsupported pair. That check, made when
  a pipeline is built, lives in `connector.NewFactory`, which is not part
  of this model. Here a factory is only the set of pairs it registers.

## Model

| member | source | states |
|---|---|---|
| `TestComponents.ExampleFactoryRegistersAllPairs` | service/internal/testcomponents/example_connector.go:21-36 | The `exampleconnector` factory registers every (source, destination) pair over the three kinds, and its registry has exactly nine entries. |
| `TestComponents.MockForwardRegistersDiagonal` | service/internal/testcomponents/example_connector.go:38-44 | The `mockforward` factory registers a pair if and only if source and destination agree. It has exactly three entries, all of which the example factory also registers. |
| `TestComponents.ConfigIrrelevant` | service/internal/testcomponents/example_connector.go:46-48 | The default config carries no fields, and the constructors never read the config: any config builds the same connector as the default one. |
| `TestComponents.CreateExample` | service/internal/testcomponents/example_connector.go:50-123 | For any non-nil downstream consumer, every constructor succeeds, whatever its settings and config. The consume function for the source kind is set and the other two are unset. A same-kind connector's consume function is the downstream consumer itself. `mutatesData` holds exactly when the ID's name is `mutate`. |
| `TestComponents.ConsumeForwards` | service/internal/testcomponents/example_connector.go:50-123 | For each of the nine pairs, consuming a batch of the source kind hands the reference batch `Forwarded` to the downstream consumer and returns that consumer's result. `Forwarded` is the input itself for a same-kind pair, and otherwise the generated batch for the input's record count. |
| `TestComponents.SameKindForwardsUnchanged` | service/internal/testcomponents/example_connector.go:50-55 | For traces→traces (and likewise metrics→metrics at :84-89 and logs→logs at :118-123), the consume function is the downstream one. The downstream consumer receives the very input batch, and its result is returned. |
| `TestComponents.CrossKindDependsOnlyOnCount` | service/internal/testcomponents/example_connector.go:57-116 | For the six cross-kind pairs, the downstream consumer receives the destination generator's batch for the input's record count. Two inputs with equal record counts give identical downstream calls and identical results. |
| `TestComponents.DownstreamSeesOnlyDestinationKind` | service/internal/testcomponents/example_connector.go:57-116 | A built (src, dst) connector only ever hands its downstream consumer batches of kind dst. Two downstream consumers that agree on every batch of kind dst make the connector behave identically on every input. |
| `TestComponents.ErrorsPassThrough` | service/internal/testcomponents/example_connector.go:59-61 | The connector returns nil exactly when the downstream consumer does. It returns an error `e` exactly when the downstream consumer returns `e`. No wrapping, no suppression, no extra failure. The same holds for the closures at :68-70, :77-79, :93-95, :102-104 and :111-113, and for the reused consume functions. |
| `TestComponents.OnlySourceEntryPoint` | service/internal/testcomponents/example_connector.go:125-131 | A built connector's entry point is set exactly for batches of its source kind. Batches of the other two kinds reach an unset consume function. |
| `TestComponents.CapabilitiesByName` | service/internal/testcomponents/example_connector.go:133-135 | `Capabilities().MutatesData` is true exactly when the component is named `mutate`. It is the same for every pair, config and downstream consumer. |

## Left out

- `extension/memorylimiterextension/internal/metadata/generated_status.go` is generated code: two constants and two one-line calls into the OpenTelemetry meter and tracer providers, which are foreign code with no logic of their own.
- `connector.NewFactory` and the `With<Src>To<Dst>` options are not part of this model. That includes the library's rejection of unsupported pairs. A factory is modelled only by its type name and the set of pairs it registers.
- The stability level `component.StabilityLevelDevelopment` attached to each registered pair is metadata and is not modelled.
- `context.Context` arguments and cancellation are not modelled. The connector passes its context through to the downstream consumer unchanged.
- The embedded `componentState` (start and shutdown lifecycle) is defined in a file that is not part of this model.
- The bodies of `testdata.GenerateTraces`, `GenerateMetrics` and `GenerateLogs` are not part of this model. They are the parameter `gen`, and nothing is claimed about the record count of a generated batch.
- The internal structure of pdata batches (resource and scope levels) is not modelled. A batch is a flat sequence of opaque records, and its record count is that sequence's length.
- Go's static typing of consumers (`consumer.Traces` accepts only `ptrace.Traces`) is represented by one kind-tagged batch type. `DownstreamSeesOnlyDestinationKind` states the typing fact the connector relies on.
- A fan-out router and a memory-pressure admission gate are not modelled, because no source for either is part of this model.
- ConsumeForwards: downstream side effects and the number of downstream calls are not modelled. A consumer is a pure function, so the contract pins the result and the argument but cannot tell one downstream call from several. The Go closures call the downstream consumer exactly once.
- CreateExample: nil downstream consumers are not modelled, because a consumer here is a total function. In Go, a nil consumer makes the same-kind constructors panic at construction (method values at :52, :86, :120). It makes the cross-kind closures panic on their first call (:60, :69, :78, :94, :103, :112).
