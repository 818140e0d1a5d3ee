/** The labeler server's options: their defaults, the namespace scope they
    select and how they are copied into the controller configuration. */
module Options {
  import opened Labels

  /** One minute, in nanoseconds (Go's `time.Duration` unit). */
  const Minute: int := 60_000_000_000

  datatype Options = Options(
    labelerNamespace: string,
    restrictToOperatorNamespace: bool,
    qps: real,
    burst: int,
    resyncPeriod: int,
    maxNumRequeues: int,
    numThreads: int,
    dbName: string)

  /** The part of the controller configuration that `Apply` fills from options. */
  datatype Config = Config(
    burst: int,
    resyncPeriod: int,
    maxNumRequeues: int,
    numThreads: int,
    watchNamespace: string,
    dbName: string)

  /** `NewOptions`: the operator's own namespace, QPS and burst of one
      million, a ten-minute resync, five requeues, two worker threads, and
      the watch restricted to the operator's namespace. No database name is
      set until a flag gives one. */
  function NewOptions(operatorNamespace: string): (o: Options)
    ensures o.labelerNamespace == operatorNamespace
    ensures o.restrictToOperatorNamespace
    ensures o.maxNumRequeues == 5 && o.numThreads == 2
    ensures o.resyncPeriod == 10 * Minute
    ensures o.qps == 1000000.0 && o.burst == 1000000
    ensures o.dbName == ""
  {
    Options(operatorNamespace, true, 1000000.0, 1000000, 10 * Minute, 5, 2, "")
  }

  /** `WatchNamespace`: the operator's namespace when restricted, all
      namespaces otherwise. */
  function WatchNamespace(o: Options): (ns: string)
    ensures o.restrictToOperatorNamespace ==> ns == o.labelerNamespace
    ensures !o.restrictToOperatorNamespace ==> ns == AllNamespaces
  {
    if o.restrictToOperatorNamespace then o.labelerNamespace else AllNamespaces
  }

  /** What the chosen scope lets the controller see: every namespace when
      unrestricted, only the operator's own otherwise. */
  lemma WatchScope(o: Options, namespace: string)
    requires o.labelerNamespace != AllNamespaces
    ensures InScope(WatchNamespace(o), namespace) <==>
      !o.restrictToOperatorNamespace || namespace == o.labelerNamespace
  {
  }

  /** By default the controller sees only the operator's namespace. */
  lemma DefaultScopeIsOwnNamespace(operatorNamespace: string, namespace: string)
    requires operatorNamespace != AllNamespaces
    ensures WatchNamespace(NewOptions(operatorNamespace)) == operatorNamespace
    ensures InScope(WatchNamespace(NewOptions(operatorNamespace)), namespace) <==> namespace == operatorNamespace
  {
    WatchScope(NewOptions(operatorNamespace), namespace);
  }

  /** `Apply`: burst, resync period, requeue limit, thread count, database
      name and the resolved watch namespace are copied unchanged. */
  function Apply(o: Options, cfg: Config): (r: Config)
    ensures r.burst == o.burst && r.resyncPeriod == o.resyncPeriod
    ensures r.maxNumRequeues == o.maxNumRequeues && r.numThreads == o.numThreads
    ensures r.dbName == o.dbName
    ensures o.restrictToOperatorNamespace ==> r.watchNamespace == o.labelerNamespace
    ensures !o.restrictToOperatorNamespace ==> r.watchNamespace == AllNamespaces
  {
    cfg.(burst := o.burst, resyncPeriod := o.resyncPeriod, maxNumRequeues := o.maxNumRequeues,
         numThreads := o.numThreads, watchNamespace := WatchNamespace(o), dbName := o.dbName)
  }

  /** Applying the default options gives a controller that requeues five
      times, runs two workers, resyncs every ten minutes and watches only the
      operator's namespace, whatever the configuration held before. */
  lemma DefaultConfig(operatorNamespace: string, cfg: Config)
    ensures var r := Apply(NewOptions(operatorNamespace), cfg);
      && r.maxNumRequeues == 5 && r.numThreads == 2
      && r.resyncPeriod == 10 * Minute
      && r.watchNamespace == operatorNamespace
  {
  }
}
