/** The shared informer factory: its construction, its two start entry
points and its passthrough accessors.

The factory owns two independent pools of informers, the general pool
started by `Start` (informers that may start after the API server and
the controllers) and the core pool started by `StartCore` (informers the
API server needs before it can start). The mutex that serializes the
calls is not modelled: each call is one atomic transition of the factory
value. The collaborators it is built with are stored unchanged and are
opaque here.
 */
module SharedInformerFactory {

  import opened InformerPool

  /** The kind key of both pools. The source keys its maps by the
      reflected type of each per-kind informer; the kinds are those the
      factory's interface offers an accessor for. */
  datatype Kind =
    | ClusterPolicies
    | ClusterPolicyBindings
    | Policies
    | PolicyBindings
    | DeploymentConfigs
    | BuildConfigs
    | Builds
    | ImageStreams
    | SecurityContextConstraints
    | ClusterResourceQuotas

  /** A SharedIndexInformer (opaque). */
  datatype Informer = Informer(id: nat)

  /** The Kubernetes external-version informer factory (opaque). */
  datatype KubeInformers = KubeInformers(id: nat)

  /** The Kubernetes internal-version informer factory (opaque). */
  datatype InternalKubeInformers = InternalKubeInformers(id: nat)

  /** The Kubernetes internal clientset (opaque). */
  datatype KubeClient = KubeClient(id: nat)

  /** The OpenShift client (opaque). */
  datatype OriginClient = OriginClient(id: nat)

  /** The ListerWatcherOverrides interface value (opaque: the factory only
      stores it for the per-kind informers to consult). */
  datatype OverridesHandle = OverridesHandle(id: nat)

  /** Go's `time.Duration`: a signed 64-bit count of nanoseconds. */
  newtype Duration = d: int | -0x8000_0000_0000_0000 <= d < 0x8000_0000_0000_0000

  /** The factory. `general` holds the source's `informers` and
      `startedInformers`; `core` holds `coreInformers` and
      `startedCoreInformers`; each pool also carries its launch log. */
  datatype Factory = Factory(
    internalKubeInformers: InternalKubeInformers,
    kubeInformers: KubeInformers,
    kubeClient: KubeClient,
    originClient: OriginClient,
    customListerWatchers: OverridesHandle,
    defaultResync: Duration,
    general: Pool<Kind, Informer>,
    core: Pool<Kind, Informer>)

  /** The collaborators of `f` and `g` are the same. */
  predicate SameCollaborators(f: Factory, g: Factory)
  {
    && f.internalKubeInformers == g.internalKubeInformers
    && f.kubeInformers == g.kubeInformers
    && f.kubeClient == g.kubeClient
    && f.originClient == g.originClient
    && f.customListerWatchers == g.customListerWatchers
    && f.defaultResync == g.defaultResync
  }

  /** The bookkeeping invariant of both pools. */
  ghost predicate Inv(f: Factory)
  {
    PoolInv(f.general) && PoolInv(f.core)
  }

  /** A new factory stores its collaborators as given; in both pools
      nothing is registered, nothing is started and nothing has run. */
  function NewInformerFactory(
    internalKubeInformers: InternalKubeInformers,
    kubeInformers: KubeInformers,
    kubeClient: KubeClient,
    originClient: OriginClient,
    customListerWatchers: OverridesHandle,
    defaultResync: Duration
  ): (f: Factory)
    ensures f.internalKubeInformers == internalKubeInformers
    ensures f.kubeInformers == kubeInformers
    ensures f.kubeClient == kubeClient
    ensures f.originClient == originClient
    ensures f.customListerWatchers == customListerWatchers
    ensures f.defaultResync == defaultResync
    ensures forall k :: k !in f.general.informers && !IsStarted(f.general, k) && f.general.runs[k] == 0
    ensures forall k :: k !in f.core.informers && !IsStarted(f.core, k) && f.core.runs[k] == 0
    ensures Inv(f)
  {
    Factory(internalKubeInformers, kubeInformers, kubeClient, originClient,
            customListerWatchers, defaultResync, Empty(), Empty())
  }

  /** `Start`: every general kind whose flag is false (a missing flag
      counts as false) has its informer launched and is flagged started;
      no other kind is launched, flags of other keys are kept, the general
      informers are not changed, and the core pool and the collaborators
      are untouched. */
  function Start(f: Factory): (r: Factory)
    ensures r.general.informers == f.general.informers
    ensures forall k :: r.general.runs[k]
                        == f.general.runs[k] + (if k in f.general.informers && !IsStarted(f.general, k) then 1 else 0)
    ensures forall k :: k in f.general.informers ==> IsStarted(r.general, k)
    ensures forall k :: IsStarted(f.general, k) ==> IsStarted(r.general, k)
    ensures forall k :: k !in f.general.informers ==> IsStarted(r.general, k) == IsStarted(f.general, k)
    ensures r.core == f.core
    ensures SameCollaborators(f, r)
  {
    f.(general := StartPool(f.general))
  }

  /** `StartCore`: the same as `Start`, on the core pool; the general pool
      and the collaborators are untouched. */
  function StartCore(f: Factory): (r: Factory)
    ensures r.core.informers == f.core.informers
    ensures forall k :: r.core.runs[k]
                        == f.core.runs[k] + (if k in f.core.informers && !IsStarted(f.core, k) then 1 else 0)
    ensures forall k :: k in f.core.informers ==> IsStarted(r.core, k)
    ensures forall k :: IsStarted(f.core, k) ==> IsStarted(r.core, k)
    ensures forall k :: k !in f.core.informers ==> IsStarted(r.core, k) == IsStarted(f.core, k)
    ensures r.general == f.general
    ensures SameCollaborators(f, r)
  {
    f.(core := StartPool(f.core))
  }

  /** The external-version Kubernetes informer factory the factory wraps. */
  function KubernetesInformers(f: Factory): KubeInformers
  {
    f.kubeInformers
  }

  /** The internal-version Kubernetes informer factory the factory wraps. */
  function InternalKubernetesInformers(f: Factory): InternalKubeInformers
  {
    f.internalKubeInformers
  }

  /** The passthrough accessors answer exactly the informer factories the
      factory was built with. */
  lemma AccessorsReturnConstructorArguments(
    internalKubeInformers: InternalKubeInformers,
    kubeInformers: KubeInformers,
    kubeClient: KubeClient,
    originClient: OriginClient,
    customListerWatchers: OverridesHandle,
    defaultResync: Duration)
    ensures var f := NewInformerFactory(internalKubeInformers, kubeInformers, kubeClient,
                                              originClient, customListerWatchers, defaultResync);
            && KubernetesInformers(f) == kubeInformers
            && InternalKubernetesInformers(f) == internalKubeInformers
  {
  }

  /** A second `Start` with no kind registered in between launches nothing
      and leaves the factory as it was; likewise for `StartCore`. */
  lemma StartIdempotent(f: Factory)
    ensures |Launches(Start(f).general)| == 0
    ensures Start(Start(f)) == Start(f)
    ensures |Launches(StartCore(f).core)| == 0
    ensures StartCore(StartCore(f)) == StartCore(f)
  {
    StartPoolIdempotent(f.general);
    StartPoolIdempotent(f.core);
  }

  /** The two pools are independent, so the order of `Start` and
      `StartCore` does not matter: the factory does not enforce one. */
  lemma StartsCommute(f: Factory)
    ensures Start(StartCore(f)) == StartCore(Start(f))
  {
  }
}
