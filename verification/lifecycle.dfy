/** The factory over its lifetime: any interleaving of `Start`,
`StartCore` and registrations of new kinds.

Registration of a kind happens in the per-kind informers, which are not
part of this model; here it is only an environment step that adds new
kinds to a pool and leaves existing entries, flags and launch logs alone.
 */
module FactoryLifecycle {

  import opened InformerPool
  import opened SharedInformerFactory

  /** One step in the life of the factory. */
  datatype Event =
    | StartEvent
    | StartCoreEvent
    | Register(generalKinds: map<Kind, Informer>, coreKinds: map<Kind, Informer>)

  function Step(f: Factory, e: Event): Factory
  {
    match e
    case StartEvent => Start(f)
    case StartCoreEvent => StartCore(f)
    case Register(g, c) => f.(general := Extend(f.general, g), core := Extend(f.core, c))
  }

  /** The factory after the events `es`, in order. */
  function Run(f: Factory, es: seq<Event>): Factory
    decreases |es|
  {
    if es == [] then f else Run(Step(f, es[0]), es[1..])
  }

  /** Every step preserves the bookkeeping invariant. */
  lemma StepInv(f: Factory, e: Event)
    requires Inv(f)
    ensures Inv(Step(f, e))
  {
    match e
    case StartEvent => StartPoolInv(f.general);
    case StartCoreEvent => StartPoolInv(f.core);
    case Register(g, c) => ExtendInv(f.general, g); ExtendInv(f.core, c);
  }

  lemma {:induction false} RunInv(f: Factory, es: seq<Event>)
    requires Inv(f)
    ensures Inv(Run(f, es))
    decreases |es|
  {
    if es != [] {
      StepInv(f, es[0]);
      RunInv(Step(f, es[0]), es[1..]);
    }
  }

  /** Each kind's informer is launched at most once, in either pool, over
      any sequence of starts interleaved with registrations; and a kind has
      been launched exactly when it is flagged started. */
  lemma LaunchedAtMostOnce(
    internalKubeInformers: InternalKubeInformers,
    kubeInformers: KubeInformers,
    kubeClient: KubeClient,
    originClient: OriginClient,
    customListerWatchers: OverridesHandle,
    defaultResync: Duration,
    es: seq<Event>)
    ensures var f := Run(NewInformerFactory(internalKubeInformers, kubeInformers, kubeClient,
                                            originClient, customListerWatchers, defaultResync), es);
            forall k ::
              && f.general.runs[k] <= 1
              && f.core.runs[k] <= 1
              && (f.general.runs[k] == 1 <==> IsStarted(f.general, k))
              && (f.core.runs[k] == 1 <==> IsStarted(f.core, k))
  {
    var f0 := NewInformerFactory(internalKubeInformers, kubeInformers, kubeClient,
                                       originClient, customListerWatchers, defaultResync);
    RunInv(f0, es);
  }

  /** Whatever happened before, a `Start` leaves every registered general
      kind launched exactly once (and `StartCore` every core kind). */
  lemma StartLaunchesEachKindOnce(f: Factory)
    requires Inv(f)
    ensures forall k :: k in f.general.informers ==> Start(f).general.runs[k] == 1
    ensures forall k :: k in f.core.informers ==> StartCore(f).core.runs[k] == 1
  {
    StartPoolRunsExactlyOnce(f.general);
    StartPoolRunsExactlyOnce(f.core);
  }

  /** Over any sequence of events, started flags only go from false to
      true, a registered informer is never replaced, and the collaborators
      never change. */
  lemma {:induction false} RunMonotone(f: Factory, es: seq<Event>)
    ensures var g := Run(f, es);
            && SameCollaborators(f, g)
            && (forall k :: IsStarted(f.general, k) ==> IsStarted(g.general, k))
            && (forall k :: IsStarted(f.core, k) ==> IsStarted(g.core, k))
            && (forall k :: k in f.general.informers ==>
                  k in g.general.informers && g.general.informers[k] == f.general.informers[k])
            && (forall k :: k in f.core.informers ==>
                  k in g.core.informers && g.core.informers[k] == f.core.informers[k])
    decreases |es|
  {
    if es != [] {
      RunMonotone(Step(f, es[0]), es[1..]);
    }
  }

  /** The passthrough accessors answer the informer factories given at
      construction, at every point of the factory's life. This generalises
      `AccessorsReturnConstructorArguments`, the case of the empty run. */
  lemma AccessorsStable(
    internalKubeInformers: InternalKubeInformers,
    kubeInformers: KubeInformers,
    kubeClient: KubeClient,
    originClient: OriginClient,
    customListerWatchers: OverridesHandle,
    defaultResync: Duration,
    es: seq<Event>)
    ensures var f := Run(NewInformerFactory(internalKubeInformers, kubeInformers, kubeClient,
                                            originClient, customListerWatchers, defaultResync), es);
            && KubernetesInformers(f) == kubeInformers
            && InternalKubernetesInformers(f) == internalKubeInformers
  {
    var f0 := NewInformerFactory(internalKubeInformers, kubeInformers, kubeClient,
                                       originClient, customListerWatchers, defaultResync);
    RunMonotone(f0, es);
  }

  /** A worked run: a factory with the build kind registered in the
      general pool and the cluster-policy kind in the core pool, nothing
      started yet; then `StartCore`, then `Start` twice. `StartCore`
      launches only the cluster-policy informer, the first `Start` only
      the build informer, and the second `Start` launches nothing and
      changes nothing: the build informer ran exactly once. */
  lemma StartCoreThenStartTwice(f: Factory, build: Informer, policy: Informer)
    requires f.general == Pool(map[Builds := build], map[], multiset{})
    requires f.core == Pool(map[ClusterPolicies := policy], map[], multiset{})
    ensures Launches(f.core) == map[ClusterPolicies := policy]
    ensures Launches(StartCore(f).general) == map[Builds := build]
    ensures Start(StartCore(f)).general.runs[Builds] == 1
    ensures |Launches(Start(StartCore(f)).general)| == 0
    ensures Start(Start(StartCore(f))) == Start(StartCore(f))
  {
    SingleKindStart(f.core, ClusterPolicies, policy);
    SingleKindStart(f.general, Builds, build);
    StartIdempotent(StartCore(f));
  }
}
