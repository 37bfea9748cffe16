/** The example connector of the collector's service test components: the
    two factories it is registered under, the nine constructors for the
    (source, destination) signal pairs, the connector value they build and
    the capability it reports. */
module TestComponents {
  import opened Wrappers
  import opened Pdata
  import Consumer
  import opened Component
  import Testdata

  /** The component type of the example connector factory. */
  const ConnType: string := "exampleconnector"

  /** The component type of the forwarding-only factory. */
  const MockForwardType: string := "mockforward"

  /** The component name for which a connector declares that it mutates data. */
  const MutateName: string := "mutate"

  /** A (source, destination) signal pair. */
  type Pair = (Signal, Signal)

  /** A connector factory: its component type and the (source, destination)
      pairs it registers a constructor for. Every registered pair is built by
      `CreateExample` for that pair. */
  datatype Factory = Factory(typ: string, pairs: set<Pair>)

  /** `ExampleConnectorFactory`: all nine pairs. */
  function ExampleConnectorFactory(): Factory
  {
    Factory(ConnType, {
      (Traces, Traces), (Traces, Metrics), (Traces, Logs),
      (Metrics, Traces), (Metrics, Metrics), (Metrics, Logs),
      (Logs, Traces), (Logs, Metrics), (Logs, Logs)
    })
  }

  /** `MockForwardConnectorFactory`: the three same-kind pairs only. */
  function MockForwardConnectorFactory(): Factory
  {
    Factory(MockForwardType, {(Traces, Traces), (Metrics, Metrics), (Logs, Logs)})
  }

  /** The default configuration: a pointer to an empty struct. */
  datatype EmptyConfig = EmptyConfig

  function CreateDefaultConfig(): EmptyConfig
  {
    EmptyConfig
  }

  /** `ExampleConnector`: one optional consume function per source kind (nil
      in Go when unset) and the component-wide mutation flag. */
  datatype ExampleConnector = ExampleConnector(
    consumeTraces: Option<Consumer.ConsumeFunc>,
    consumeMetrics: Option<Consumer.ConsumeFunc>,
    consumeLogs: Option<Consumer.ConsumeFunc>,
    mutatesData: bool)

  /** The consume function the connector holds for batches of `kind`. */
  function Entry(c: ExampleConnector, kind: Signal): Option<Consumer.ConsumeFunc>
  {
    match kind
    case Traces => c.consumeTraces
    case Metrics => c.consumeMetrics
    case Logs => c.consumeLogs
  }

  /** Calls the connector's consume method for the kind of `b`: `ConsumeTraces`,
      `ConsumeMetrics` or `ConsumeLogs`. `None` when that consume function is
      unset, a call that would panic on a nil function in Go. */
  function Consume(c: ExampleConnector, b: Batch): Option<Consumer.Outcome>
  {
    match Entry(c, b.kind)
    case Some(f) => Some(f(b))
    case None => None
  }

  /** `Capabilities()`: reports the flag fixed at construction. */
  function Capabilities(c: ExampleConnector): Consumer.Capabilities
  {
    Consumer.Capabilities(c.mutatesData)
  }

  /** The nine `createExample<Src>To<Dst>` constructors, selected by the pair.
      The context and the configuration are ignored; `next` is the downstream
      consumer of kind `dst` and `gen` the test-data generators. */
  function CreateExample<C>(src: Signal, dst: Signal, settings: CreateSettings, cfg: C,
                            next: Consumer.ConsumeFunc, gen: Testdata.Generator)
    : (r: Result<ExampleConnector, Consumer.Error>)
    ensures r.Success?
    ensures forall kind: Signal :: Entry(r.value, kind).Some? <==> kind == src
    ensures src == dst ==> Entry(r.value, src) == Some(next)
    ensures r.value.mutatesData <==> settings.id.name == MutateName
  {
    var mutates := settings.id.name == MutateName;
    match (src, dst)
    case (Traces, Traces) =>
      Success(ExampleConnector(Some(next), None, None, mutates))
    case (Traces, Metrics) =>
      Success(ExampleConnector(
        Some(td => next(Testdata.Generate(gen, Metrics, RecordCount(td)))), None, None, mutates))
    case (Traces, Logs) =>
      Success(ExampleConnector(
        Some(td => next(Testdata.Generate(gen, Logs, RecordCount(td)))), None, None, mutates))
    case (Metrics, Traces) =>
      Success(ExampleConnector(
        None, Some(md => next(Testdata.Generate(gen, Traces, RecordCount(md)))), None, mutates))
    case (Metrics, Metrics) =>
      Success(ExampleConnector(None, Some(next), None, mutates))
    case (Metrics, Logs) =>
      Success(ExampleConnector(
        None, Some(md => next(Testdata.Generate(gen, Logs, RecordCount(md)))), None, mutates))
    case (Logs, Traces) =>
      Success(ExampleConnector(
        None, None, Some(ld => next(Testdata.Generate(gen, Traces, RecordCount(ld)))), mutates))
    case (Logs, Metrics) =>
      Success(ExampleConnector(
        None, None, Some(ld => next(Testdata.Generate(gen, Metrics, RecordCount(ld)))), mutates))
    case (Logs, Logs) =>
      Success(ExampleConnector(None, None, Some(next), mutates))
  }

  /** Reference definition of what a connector for (`src`, `dst`) hands to
      its downstream consumer for an input `b` of kind `src`: `b` itself when
      the kinds agree, otherwise a batch of kind `dst` generated from the
      record count of `b` and nothing else. */
  function Forwarded(src: Signal, dst: Signal, gen: Testdata.Generator, b: Batch): Batch
  {
    if src == dst then b else Batch(dst, gen(dst, |b.records|))
  }

  /** Every constructor's consume function hands the reference batch to the
      downstream consumer and returns that consumer's result as is. */
  lemma ConsumeForwards<C>(src: Signal, dst: Signal, settings: CreateSettings, cfg: C,
                           next: Consumer.ConsumeFunc, gen: Testdata.Generator, b: Batch)
    requires b.kind == src
    ensures Consume(CreateExample(src, dst, settings, cfg, next, gen).value, b)
            == Some(next(Forwarded(src, dst, gen, b)))
  {
    if src != dst {
      assert Forwarded(src, dst, gen, b) == Testdata.Generate(gen, dst, RecordCount(b));
    }
    match (src, dst)
    case (Traces, Traces) =>
    case (Traces, Metrics) =>
    case (Traces, Logs) =>
    case (Metrics, Traces) =>
    case (Metrics, Metrics) =>
    case (Metrics, Logs) =>
    case (Logs, Traces) =>
    case (Logs, Metrics) =>
    case (Logs, Logs) =>
  }

  /** The example factory registers every one of the nine pairs, and no
      pair twice: its registry has exactly nine entries. */
  lemma ExampleFactoryRegistersAllPairs()
    ensures ExampleConnectorFactory().typ == ConnType
    ensures forall src: Signal, dst: Signal :: (src, dst) in ExampleConnectorFactory().pairs
    ensures |ExampleConnectorFactory().pairs| == 9
  {
    forall src: Signal, dst: Signal ensures (src, dst) in ExampleConnectorFactory().pairs {
      match (src, dst)
      case (Traces, Traces) =>
      case (Traces, Metrics) =>
      case (Traces, Logs) =>
      case (Metrics, Traces) =>
      case (Metrics, Metrics) =>
      case (Metrics, Logs) =>
      case (Logs, Traces) =>
      case (Logs, Metrics) =>
      case (Logs, Logs) =>
    }
  }

  /** The forwarding factory registers a pair exactly when its source and
      destination kinds agree: the three diagonal pairs, all of which the
      example factory registers too. */
  lemma MockForwardRegistersDiagonal()
    ensures MockForwardConnectorFactory().typ == MockForwardType
    ensures forall src: Signal, dst: Signal ::
              (src, dst) in MockForwardConnectorFactory().pairs <==> src == dst
    ensures |MockForwardConnectorFactory().pairs| == 3
    ensures MockForwardConnectorFactory().pairs < ExampleConnectorFactory().pairs
  {
    ExampleFactoryRegistersAllPairs();
    forall src: Signal, dst: Signal
      ensures (src, dst) in MockForwardConnectorFactory().pairs <==> src == dst
    {
      match src
      case Traces =>
      case Metrics =>
      case Logs =>
    }
    assert (Traces, Metrics) !in MockForwardConnectorFactory().pairs;
  }

  /** The downstream consumer of a built connector for (`src`, `dst`) only
      ever receives batches of kind `dst`: two downstream consumers that agree
      on every batch of kind `dst` make the connector behave identically on
      every input. */
  lemma DownstreamSeesOnlyDestinationKind<C>(src: Signal, dst: Signal, settings: CreateSettings,
                                             cfg: C, next1: Consumer.ConsumeFunc,
                                             next2: Consumer.ConsumeFunc,
                                             gen: Testdata.Generator, b: Batch)
    requires forall d: Batch :: d.kind == dst ==> next1(d) == next2(d)
    ensures Consume(CreateExample(src, dst, settings, cfg, next1, gen).value, b)
            == Consume(CreateExample(src, dst, settings, cfg, next2, gen).value, b)
  {
    if b.kind == src {
      ConsumeForwards(src, dst, settings, cfg, next1, gen, b);
      ConsumeForwards(src, dst, settings, cfg, next2, gen, b);
      assert Forwarded(src, dst, gen, b).kind == dst;
    }
  }

  /** Same-kind connectors are identity forwarders: the consume function is
      the downstream consumer's own, so the downstream consumer sees the very
      batch the connector was given and its result is returned. */
  lemma SameKindForwardsUnchanged<C>(kind: Signal, settings: CreateSettings, cfg: C,
                                     next: Consumer.ConsumeFunc, gen: Testdata.Generator, b: Batch)
    requires b.kind == kind
    ensures Entry(CreateExample(kind, kind, settings, cfg, next, gen).value, kind) == Some(next)
    ensures Consume(CreateExample(kind, kind, settings, cfg, next, gen).value, b) == Some(next(b))
  {
    ConsumeForwards(kind, kind, settings, cfg, next, gen, b);
  }

  /** Cross-kind connectors hand the generator for `dst` the record count of
      the input and nothing else, so two inputs with equal record counts lead
      to identical downstream calls and identical results. */
  lemma CrossKindDependsOnlyOnCount<C>(src: Signal, dst: Signal, settings: CreateSettings, cfg: C,
                                       next: Consumer.ConsumeFunc, gen: Testdata.Generator,
                                       b1: Batch, b2: Batch)
    requires src != dst
    requires b1.kind == src && b2.kind == src
    requires RecordCount(b1) == RecordCount(b2)
    ensures Consume(CreateExample(src, dst, settings, cfg, next, gen).value, b1)
            == Some(next(Testdata.Generate(gen, dst, RecordCount(b1))))
    ensures Consume(CreateExample(src, dst, settings, cfg, next, gen).value, b1)
            == Consume(CreateExample(src, dst, settings, cfg, next, gen).value, b2)
  {
    ConsumeForwards(src, dst, settings, cfg, next, gen, b1);
    ConsumeForwards(src, dst, settings, cfg, next, gen, b2);
  }

  /** Errors pass through unchanged: the connector succeeds exactly when the
      downstream consumer accepts the forwarded batch, and fails with exactly
      the downstream consumer's error otherwise. It adds no failure of its own. */
  lemma ErrorsPassThrough<C>(src: Signal, dst: Signal, settings: CreateSettings, cfg: C,
                             next: Consumer.ConsumeFunc, gen: Testdata.Generator, b: Batch,
                             e: Consumer.Error)
    requires b.kind == src
    ensures Consume(CreateExample(src, dst, settings, cfg, next, gen).value, b) == Some(Consumer.Ok)
            <==> next(Forwarded(src, dst, gen, b)) == Consumer.Ok
    ensures Consume(CreateExample(src, dst, settings, cfg, next, gen).value, b) == Some(Consumer.Err(e))
            <==> next(Forwarded(src, dst, gen, b)) == Consumer.Err(e)
  {
    ConsumeForwards(src, dst, settings, cfg, next, gen, b);
  }

  /** A connector answers only on its source kind's entry point; a batch of
      another kind reaches an unset consume function. */
  lemma OnlySourceEntryPoint<C>(src: Signal, dst: Signal, settings: CreateSettings, cfg: C,
                                next: Consumer.ConsumeFunc, gen: Testdata.Generator, b: Batch)
    ensures Consume(CreateExample(src, dst, settings, cfg, next, gen).value, b).Some?
            <==> b.kind == src
  {
  }

  /** `Capabilities().MutatesData` holds exactly when the component is named
      "mutate", for every pair alike: the reported capability depends on the
      settings alone. */
  lemma CapabilitiesByName<C1, C2>(src1: Signal, dst1: Signal, src2: Signal, dst2: Signal,
                                   settings: CreateSettings, cfg1: C1, cfg2: C2,
                                   next1: Consumer.ConsumeFunc, next2: Consumer.ConsumeFunc,
                                   gen: Testdata.Generator)
    ensures Capabilities(CreateExample(src1, dst1, settings, cfg1, next1, gen).value).mutatesData
            <==> settings.id.name == MutateName
    ensures Capabilities(CreateExample(src1, dst1, settings, cfg1, next1, gen).value)
            == Capabilities(CreateExample(src2, dst2, settings, cfg2, next2, gen).value)
  {
  }

  /** The configuration is never read: any two configurations, the default one
      included, build the same connector. */
  lemma ConfigIrrelevant<C>(src: Signal, dst: Signal, settings: CreateSettings, cfg: C,
                            next: Consumer.ConsumeFunc, gen: Testdata.Generator)
    ensures CreateExample(src, dst, settings, cfg, next, gen)
            == CreateExample(src, dst, settings, CreateDefaultConfig(), next, gen)
  {
  }
}
