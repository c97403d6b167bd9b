# Shared informer factory: start-once bookkeeping

A Dafny model of the shared informer factory of the OpenShift controller
layer (`pkg/controller/shared/shared_informer.go`). The factory keeps two
independent pools of informers, keyed by resource kind: the general pool,
which `Start` launches after the API server and the controllers are up,
and the core pool, which `StartCore` launches because the API server needs
it to start. Each pool has a parallel map of "started" flags, where a
missing key reads as false. A start walks its pool once. It launches
`Run` for every kind whose flag is false and sets that flag. So however
often the starts are called, each kind's informer is launched at most
once per pool. The file
also defines the ListerWatcher override table, whose lookup returns the
configured ListerWatcher or nil.

Modules:

- `ListerWatcherOverrides` (`overrides.dfy`): `GroupResource` keys, the
  override table as a map, and `GetListerWatcher`.
- `InformerPool` (`pool.dfy`): one pool. `StartPool` is one start as an
  atomic step. `StartLoop` is the source's range loop, which visits kinds
  in an arbitrary order; it is proved to produce the same result as
  `StartPool`. The pool also has a bookkeeping invariant and lemmas about
  it.
- `SharedInformerFactory` (`factory.dfy`): the factory record,
  `NewInformerFactory`, `Start`, `StartCore`, and the two passthrough
  accessors.
- `FactoryLifecycle` (`lifecycle.dfy`): any interleaving of `Start`,
  `StartCore` and registrations of new kinds, and the lemmas that hold
  over every such run.

Modelling choices:

- A pool is generic in its key `K` and its informer `I`. The factory
  keys both pools by `Kind`, an enumeration of the ten kinds the
  factory's interface offers accessors for; it replaces the source's
  reflected-type key. An informer is an opaque `Informer` id.
- Each pool carries `runs`, a multiset log of its `Run` launches. A
  multiset fits because Go map iteration order is unspecified. The log is
  a plain field, not a ghost one.
- The clients, the two Kubernetes informer factories and the
  ListerWatcherOverrides interface value are opaque identifiers. The
  factory only stores them.
- `defaultResync` is a signed 64-bit `Duration`.
- Registration of new kinds happens in the per-kind informer files, which
  are not part of this model. Here it is only an environment step,
  `Extend` inside the `Register` event. It adds new kinds and keeps
  existing entries, flags and logs.

The interface comment (shared_informer.go:42-43) promises nil when no
ListerWatcher was specified for a resource. The default table returns
`o[resource]`, so a missing key and a key stored with a nil ListerWatcher
both give nil. The model keeps both cases: a table entry may itself be
`Nil`.

## Model

| member | source | states |
|---|---|---|
| `ListerWatcherOverrides.OverriddenIff` | pkg/controller/shared/shared_informer.go:42-51 | The lookup is non-nil exactly when the table holds a non-nil entry for that resource. In that case it is that entry. |
| `ListerWatcherOverrides.LookupLaws` | pkg/controller/shared/shared_informer.go:49-51 | The lookup behaves like a store. An empty table overrides nothing. An entry answers for its own resource. An entry for one resource does not change the answer for any other resource. |
| `InformerPool.Launches` | pkg/controller/shared/shared_informer.go:95-98 | The launches of one start are exactly what `StartPool` adds to the launch log: each registered kind whose flag is false (a missing flag counts as false) once, with the informer registered for it, and no other kind. |
| `InformerPool.StartPool` | pkg/controller/shared/shared_informer.go:95-100 | The launch count rises by one for each unstarted registered kind and stays the same for every other kind. Afterwards every registered kind is flagged started. Flags that were true stay true. Flags of unregistered keys are unchanged. The informers are unchanged. |
| `InformerPool.StartLoop` | pkg/controller/shared/shared_informer.go:95-100 | Visiting the map in any order and checking the live flag before each launch gives the same pool as the atomic step. It launches exactly the informers `Launches` names. |
| `InformerPool.StartPoolIdempotent` | pkg/controller/shared/shared_informer.go:96-98 | A second start with no new registration launches nothing and leaves the pool unchanged. |
| `InformerPool.StartPoolInv` | pkg/controller/shared/shared_informer.go:95-99 | Starting preserves the bookkeeping invariant. A kind is flagged only if it is registered, and it has been launched once if flagged and never otherwise. |
| `InformerPool.StartPoolRunsExactlyOnce` | pkg/controller/shared/shared_informer.go:95-99 | From any state that satisfies the invariant, a start leaves every registered kind launched exactly once and no kind launched twice. |
| `SharedInformerFactory.NewInformerFactory` | pkg/controller/shared/shared_informer.go:53-74 | The new factory stores all six collaborators as given. Both pools start empty, with no flag set and no launch, so the bookkeeping invariant holds. |
| `SharedInformerFactory.Start` | pkg/controller/shared/shared_informer.go:91-101 | Only the unstarted general kinds are launched, and all general kinds end up flagged. Existing flags are kept. The general informers are unchanged. The core pool, its flags and every collaborator are untouched. |
| `SharedInformerFactory.StartCore` | pkg/controller/shared/shared_informer.go:103-113 | This is the same guarantee on the core pool. The general pool, its flags and every collaborator are untouched. |
| `SharedInformerFactory.AccessorsReturnConstructorArguments` | pkg/controller/shared/shared_informer.go:155-161 | `KubernetesInformers` and `InternalKubernetesInformers` of a new factory return exactly the factories it was built with. |
| `SharedInformerFactory.StartIdempotent` | pkg/controller/shared/shared_informer.go:91-113 | Calling `Start` twice is the same as calling it once, and the second call launches nothing. The same holds for `StartCore`. |
| `SharedInformerFactory.StartsCommute` | pkg/controller/shared/shared_informer.go:17-21 | The factory does not enforce an order between `StartCore` and `Start`. The two starts commute, so neither order changes the outcome. |
| `FactoryLifecycle.RunInv` | pkg/controller/shared/shared_informer.go:91-113 | Every sequence of starts and registrations preserves the invariant of both pools. |
| `FactoryLifecycle.LaunchedAtMostOnce` | pkg/controller/shared/shared_informer.go:95-112 | Over any run from a new factory, each kind is launched at most once in each pool. It has been launched exactly when its flag is set. |
| `FactoryLifecycle.StartLaunchesEachKindOnce` | pkg/controller/shared/shared_informer.go:95-112 | Whatever came before, after `Start` every registered general kind has run exactly once. The same holds for `StartCore` and the core kinds. |
| `FactoryLifecycle.RunMonotone` | pkg/controller/shared/shared_informer.go:91-113 | Over any run, started flags only go from false to true. A registered informer is never replaced, and the collaborators never change. |
| `FactoryLifecycle.AccessorsStable` | pkg/controller/shared/shared_informer.go:155-161 | At every point of a factory's life, the passthrough accessors return the informer factories given at construction. |
| `FactoryLifecycle.StartCoreThenStartTwice` | pkg/controller/shared/shared_informer.go:91-113 | With builds registered in the general pool and cluster policies in the core pool: `StartCore` launches only the cluster-policy informer. The first `Start` launches only the build informer. The second `Start` launches nothing and changes nothing, so the build informer ran exactly once. |

## Left out

- The `sync.Mutex` and the goroutines (`go informer.Run(stopCh)`). Each call to `Start` or `StartCore` is one atomic transition, and a launch is an entry in the pool's log. Concurrency is not modelled.
- `informer.Run` itself and the stop channel it receives. The informer is opaque and its run loop is outside this component.
- The Kubernetes and OpenShift clients, the two Kubernetes informer factories, the override interface value and the resync duration. They are opaque or stored values, because the factory only keeps them.
- `reflect.Type` keys. These become the `Kind` enumeration, so a kind outside the ten accessor kinds cannot be expressed in the factory. The pool lemmas hold for any comparable key.
- The per-kind accessors `ClusterPolicies` … `ClusterResourceQuotas` (shared_informer.go:115-153). Each only wraps a pointer to the factory, and the per-kind informer types and their lookup-or-create logic are not part of this model. Registration is therefore only the environment step `Extend`.
- Use of the override table when an informer is constructed. That happens in the per-kind files, which are not part of this model. Only the lookup is modelled.
- Any ordering between `StartCore` and `Start`. The source states it only in comments. `StartsCommute` shows the order does not affect the bookkeeping.
- The at-most-once guarantee is per kind and per pool, as the source's bookkeeping is. The same informer value registered under two kinds, or in both pools, is launched once for each; the model does not promise at most one launch per informer value.
- `KubernetesInformers` and `InternalKubernetesInformers` carry no contract of their own. Their promise is stated by `AccessorsReturnConstructorArguments` and `AccessorsStable`.
