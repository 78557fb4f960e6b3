# Repository chain assembly and lock-aware dispatch

A Dafny model of the layer in Gradle's dependency resolution that sits between the
dependency graph builder and the configured repositories:

- **Chain assembly** (`ResolveIvyFactory.create`). For each declared repository it creates the
  connector and gives Ivy-aware connectors their Ivy context. It wires external-resource
  resolvers to a parent-lookup façade that takes the cache lock. Then it wraps the connector
  in decorator layers and appends the stack to the user resolver chain. Which layers it gets
  depends only on whether the connector is local and whether it is in dynamic-resolve mode;
  being Ivy-aware only picks the persistent cache's module-id extractor. The persistent
  cache keys listings with that extractor: the legacy one appends `":" + version` to the name.
- **Lock-releasing decorator** (`CacheLockReleasingModuleComponentsRepository`). Every remote
  access operation, and the decorator's own `resolveArtifact`, calls the wrapped repository once
  inside `longRunningOperation`. Arguments and the result object are passed through unchanged.
- **Provenance dispatch** (`RepositoryChainArtifactResolver`). It keeps an id → repository
  map. A request goes only to the repository named by the repository id in the component's
  repository-chain source, rewritten to carry the delegate source. Local access is tried
  first. Remote access is tried only while the result is still empty. An unknown id fails
  before any repository is called.

## How the model is built

- `types.dfy` (module `Types`): the values. Module sources are a tagged union: a
  repository-chain source `{repositoryId, delegate}`, or an opaque source. An exception is
  an `Outcome` (`Completed | Threw(error)`).
- `locking.dfy` (module `Locking`): the abstract cache-locking manager. Its state is a held
  flag plus an event trace (`Acquired`, `Released`, and `Invoked(endpoint, request, lockHeld)`
  for a delegate call). A runnable is an `Operation` tree: calls, `useCache` scopes,
  `longRunningOperation` scopes and sequences. `Run` is the step-by-step state machine.
  `Trace` is the event sequence each construct emits, and lemmas connect the two. The
  class `CacheLockingManager` carries the same state in mutable fields. A Dafny method
  cannot take a runnable, so each scope is an enter/exit guard pair: the enter method
  returns the prior state and the exit method restores it.
- `collaborators.dfy` (module `Collaborators`): recording stand-ins for code outside the
  layer. `RepositoryAccess` is one entry point with a fixed `behaviour : Request -> Reply`.
  Calling it logs the call and the current lock state into the manager's trace, stores a
  found answer into the `ResolveResult`, and ends as the reply says. `ModuleComponentRepository`
  is a repository as dispatch sees it: an id, a local access, a remote access and its own
  `resolveArtifact`. `UseCache` and `LongRunningOperation` run one delegate call inside the
  matching scope.
- `cache_lock_releasing.dfy`, `repository_chain_artifact_resolver.dfy`,
  `resolve_ivy_factory.dfy`: one module per source file. These are classes:
  `CacheLockReleasingModuleComponentsRepository`, `LockReleasingRepositoryAccess`,
  `RepositoryChainArtifactResolver` and `ParentModuleLookupResolver`. The two extractors
  are the constructors of the datatype `ModuleIdExtractor`. The factory class has no
  counterpart: `create` is a module-level method with a `while` loop, and the lock manager
  is passed to it. `UserResolverChain` is a stand-in for a class that is not part of this
  model. Each decorator stack is a value: the configured connector plus its layer tags,
  innermost first.

Behaviour of the code that the model keeps as it is:

- `resolveArtifact` is a method of the lock-releasing repository itself, not of its remote
  access (CacheLockReleasingModuleComponentsRepository.java:44-50).
- Only the artifact-set dispatch checks `hasResult()`, between the local and the remote call.
  `resolveArtifact` goes straight to the repository's own entry point.
- `add` does not reject a duplicate repository id. It replaces the earlier repository, and
  `FindAfterAdd` states that.

## Model

| member | source | states |
|---|---|---|
| `Locking.Run` | subprojects/core-impl/src/main/groovy/org/gradle/api/internal/artifacts/ivyservice/ivyresolve/CacheLockReleasingModuleComponentsRepository.java:45 | Any nesting of `useCache` and `longRunningOperation` scopes leaves the lock exactly as it found it. It only appends to the trace. |
| `Locking.RunTrace` | subprojects/core-impl/src/main/groovy/org/gradle/api/internal/artifacts/ivyservice/ivyresolve/CacheLockReleasingModuleComponentsRepository.java:63-93 | The enter/run/exit state machine appends exactly the events the reference `Trace` gives. For example, `longRunningOperation` on a held lock emits release, the body's events, then re-acquire. |
| `Locking.TraceDisciplined` | subprojects/core-impl/src/main/groovy/org/gradle/api/internal/artifacts/ivyservice/ivyresolve/ResolveIvyFactory.java:168-198 | The events of any operation are well bracketed: no acquire of a held lock (so nested `useCache` is reentrant), no release of a free lock, every call records the lock state it ran under, and the lock ends as it started. |
| `Locking.TraceInvocations` | subprojects/core-impl/src/main/groovy/org/gradle/api/internal/artifacts/ivyservice/ivyresolve/CacheLockReleasingModuleComponentsRepository.java:63-93 | The delegate calls an operation makes, in order, run under the lock state of their innermost scope: without the lock inside `longRunningOperation`, with it inside `useCache`. |
| `Locking.LongRunningCallIsUnlocked` | subprojects/core-impl/src/main/groovy/org/gradle/api/internal/artifacts/ivyservice/ivyresolve/CacheLockReleasingModuleComponentsRepository.java:44-50 | A call inside `longRunningOperation` is made exactly once, without the lock, and the lock state afterwards equals the state before. |
| `Locking.UseCacheCallIsLocked` | subprojects/core-impl/src/main/groovy/org/gradle/api/internal/artifacts/ivyservice/ivyresolve/ResolveIvyFactory.java:168-174 | A call inside `useCache` is made exactly once, with the lock held, and the lock state afterwards equals the state before. |
| `Locking.LockedLookupOfRemoteCall` | subprojects/core-impl/src/main/groovy/org/gradle/api/internal/artifacts/ivyservice/ivyresolve/ResolveIvyFactory.java:176-182 | A parent lookup under `useCache` that reaches a lock-releasing remote call still makes that call without the lock. The events stay well bracketed and the lock ends as on entry. |
| `Locking.NestedUseCacheIsInline` | subprojects/core-impl/src/main/groovy/org/gradle/api/internal/artifacts/ivyservice/ivyresolve/ResolveIvyFactory.java:169-173 | A `useCache` scope nested inside another emits no extra acquire or release. |
| `Collaborators.UseCache` | subprojects/core-impl/src/main/groovy/org/gradle/api/internal/artifacts/ivyservice/ivyresolve/ResolveIvyFactory.java:169-173 | Running one delegate call inside `useCache` moves the manager exactly as `Run` of that scope does. The result and the outcome are the delegate's. |
| `Collaborators.LongRunningOperation` | subprojects/core-impl/src/main/groovy/org/gradle/api/internal/artifacts/ivyservice/ivyresolve/CacheLockReleasingModuleComponentsRepository.java:64-68 | Running one delegate call inside `longRunningOperation` moves the manager exactly as `Run` of that scope does. The result and the outcome are the delegate's. |
| `CacheLockReleasing.CacheLockReleasingModuleComponentsRepository.constructor` | subprojects/core-impl/src/main/groovy/org/gradle/api/internal/artifacts/ivyservice/ivyresolve/CacheLockReleasingModuleComponentsRepository.java:32-37 | It builds its remote access once, as a fresh lock-releasing wrapper around the wrapped repository's remote access. The wrapper is labelled with the wrapped repository's id and shares the decorator's lock manager. |
| `CacheLockReleasing.LockReleasingRepositoryAccess.constructor` | subprojects/core-impl/src/main/groovy/org/gradle/api/internal/artifacts/ivyservice/ivyresolve/CacheLockReleasingModuleComponentsRepository.java:57-61 | The wrapper keeps the given name, delegate and lock manager, unchanged. |
| `CacheLockReleasing.CacheLockReleasingModuleComponentsRepository.GetRemoteAccess` | subprojects/core-impl/src/main/groovy/org/gradle/api/internal/artifacts/ivyservice/ivyresolve/CacheLockReleasingModuleComponentsRepository.java:39-42 | It returns that single wrapper, whose delegate is the wrapped repository's remote access and whose name is the repository's id. |
| `CacheLockReleasing.CacheLockReleasingModuleComponentsRepository.GetLocalAccess` | subprojects/core-impl/src/main/groovy/org/gradle/api/internal/artifacts/ivyservice/ivyresolve/CacheLockReleasingModuleComponentsRepository.java:33 | Local access is not overridden. It is the wrapped repository's own, and no lock operation wraps it. |
| `CacheLockReleasing.CacheLockReleasingModuleComponentsRepository.ResolveArtifact` | subprojects/core-impl/src/main/groovy/org/gradle/api/internal/artifacts/ivyservice/ivyresolve/CacheLockReleasingModuleComponentsRepository.java:44-50 | It calls the wrapped repository's `resolveArtifact` exactly once, without the lock, with the same artifact, source and result. The lock state is restored, and the result and the outcome are the delegate's. |
| `CacheLockReleasing.LockReleasingRepositoryAccess.ListModuleVersions` | subprojects/core-impl/src/main/groovy/org/gradle/api/internal/artifacts/ivyservice/ivyresolve/CacheLockReleasingModuleComponentsRepository.java:63-69 | The manager moves exactly as `Run` of a `longRunningOperation` around the one call: release and re-acquire only if the lock was held, with the call in between. It calls the delegate's list operation exactly once, without the lock, with the same dependency and result. The lock state is restored, and the result and the outcome are the delegate's. |
| `CacheLockReleasing.LockReleasingRepositoryAccess.ResolveComponentMetaData` | subprojects/core-impl/src/main/groovy/org/gradle/api/internal/artifacts/ivyservice/ivyresolve/CacheLockReleasingModuleComponentsRepository.java:71-77 | The same as the row above, for the metadata call with the same dependency and component identifier. |
| `CacheLockReleasing.LockReleasingRepositoryAccess.ResolveModuleArtifactsByType` | subprojects/core-impl/src/main/groovy/org/gradle/api/internal/artifacts/ivyservice/ivyresolve/CacheLockReleasingModuleComponentsRepository.java:79-85 | The same, for the artifact-set call with the same component and artifact type. |
| `CacheLockReleasing.LockReleasingRepositoryAccess.ResolveModuleArtifactsByUsage` | subprojects/core-impl/src/main/groovy/org/gradle/api/internal/artifacts/ivyservice/ivyresolve/CacheLockReleasingModuleComponentsRepository.java:87-93 | The same, for the artifact-set call with the same component and usage. |
| `ChainArtifactResolution.RepositorySource` | subprojects/core-impl/src/main/groovy/org/gradle/api/internal/artifacts/ivyservice/ivyresolve/RepositoryChainArtifactResolver.java:65-67 | The cast succeeds exactly for repository-chain sources, and returns the tag the source carries. Any other source raises a cast failure. |
| `ChainArtifactResolution.UnpackSource` | subprojects/core-impl/src/main/groovy/org/gradle/api/internal/artifacts/ivyservice/ivyresolve/RepositoryChainArtifactResolver.java:69-71 | Unwrapping succeeds exactly for repository-chain sources. Re-tagging the result with the source's repository id gives back the original source. |
| `ChainArtifactResolution.UnpackComponentSource` | subprojects/core-impl/src/main/groovy/org/gradle/api/internal/artifacts/ivyservice/ivyresolve/RepositoryChainArtifactResolver.java:73-75 | The rewritten component keeps its id. Its source is exactly the delegate inside the original repository-chain source. |
| `ChainArtifactResolution.UnpackRoundTrip` | subprojects/core-impl/src/main/groovy/org/gradle/api/internal/artifacts/ivyservice/ivyresolve/RepositoryChainArtifactResolver.java:65-75 | Tagging a delegate source with a repository id and unwrapping it yields the same delegate and id. For a component, it yields the component with the delegate as its source. |
| `ChainArtifactResolution.FindSourceRepository` | subprojects/core-impl/src/main/groovy/org/gradle/api/internal/artifacts/ivyservice/ivyresolve/RepositoryChainArtifactResolver.java:57-63 | It finds a repository exactly when the source is a chain source whose id is registered, and then it is the one stored under that id. An unregistered id gives the invalid-repository failure. A non-chain source gives the cast failure. |
| `ChainArtifactResolution.FindAfterAdd` | subprojects/core-impl/src/main/groovy/org/gradle/api/internal/artifacts/ivyservice/ivyresolve/RepositoryChainArtifactResolver.java:29-31 | After `add`, a source tagged with the added id finds the added repository, even when another was stored under that id before. Lookups of other ids are unchanged. |
| `ChainArtifactResolution.LocalThenRemote` | subprojects/core-impl/src/main/groovy/org/gradle/api/internal/artifacts/ivyservice/ivyresolve/RepositoryChainArtifactResolver.java:37-40 | Remote access is called if and only if the local call completed and left the result empty. A local answer is final and is never overwritten. A local failure propagates without a remote call. |
| `ChainArtifactResolution.RepositoryChainArtifactResolver.LocalThenRemoteCall` | subprojects/core-impl/src/main/groovy/org/gradle/api/internal/artifacts/ivyservice/ivyresolve/RepositoryChainArtifactResolver.java:37-40 | It calls the repository's local access once, then its remote access once exactly when `LocalThenRemote` says so, both with the same request and the lock state found on entry. The result and the outcome are those `LocalThenRemote` gives. |
| `ChainArtifactResolution.RepositoryChainArtifactResolver.Add` | subprojects/core-impl/src/main/groovy/org/gradle/api/internal/artifacts/ivyservice/ivyresolve/RepositoryChainArtifactResolver.java:29-31 | The map afterwards is the old map with the repository stored under its own id, replacing any earlier one. Every entry stays keyed by its own id. |
| `ChainArtifactResolution.RepositoryChainArtifactResolver.ResolveModuleArtifactsByType` | subprojects/core-impl/src/main/groovy/org/gradle/api/internal/artifacts/ivyservice/ivyresolve/RepositoryChainArtifactResolver.java:33-41 | A failed lookup raises before any repository call and leaves the result untouched. Otherwise the only calls are to the repository named by the source's id: its local access once with the unwrapped component, then its remote access once if `LocalThenRemote` says so. The result and the outcome are as `LocalThenRemote` gives. |
| `ChainArtifactResolution.RepositoryChainArtifactResolver.ResolveModuleArtifactsByUsage` | subprojects/core-impl/src/main/groovy/org/gradle/api/internal/artifacts/ivyservice/ivyresolve/RepositoryChainArtifactResolver.java:43-51 | The same as the row above, for the usage overload. |
| `ChainArtifactResolution.RepositoryChainArtifactResolver.ResolveArtifact` | subprojects/core-impl/src/main/groovy/org/gradle/api/internal/artifacts/ivyservice/ivyresolve/RepositoryChainArtifactResolver.java:53-55 | A failed lookup raises before any call. Otherwise the named repository's `resolveArtifact` is called exactly once, with the unwrapped source and the same result object. The result and the outcome are its own. |
| `ResolveIvyFactory.ModuleIdExtractor.Transform` | subprojects/core-impl/src/main/groovy/org/gradle/api/internal/artifacts/ivyservice/ivyresolve/ResolveIvyFactory.java:201-213 | Both keys keep the group. The default key is the module name, whatever the version. The legacy key is the name, a colon, then the whole version. It splits at the length of the original name, and it is not injective (see `LegacyModuleIdsCanCollide`). |
| `ResolveIvyFactory.GetModuleExtractor` | subprojects/core-impl/src/main/groovy/org/gradle/api/internal/artifacts/ivyservice/ivyresolve/ResolveIvyFactory.java:138-144 | The legacy extractor is chosen if and only if the connector is Ivy-aware; every other connector gets the default one. |
| `ResolveIvyFactory.ModuleIdsAcrossVersions` | subprojects/core-impl/src/main/groovy/org/gradle/api/internal/artifacts/ivyservice/ivyresolve/ResolveIvyFactory.java:138-144 | Take two selectors for the same group and name. They get the same cache key if and only if the repository is not Ivy-aware or their versions are equal. So the legacy extractor separates versions and the default one merges them. |
| `ResolveIvyFactory.LegacyModuleIdsCanCollide` | subprojects/core-impl/src/main/groovy/org/gradle/api/internal/artifacts/ivyservice/ivyresolve/ResolveIvyFactory.java:209-213 | The legacy `name + ":" + version` key is not injective: name `a:b` with version `1` and name `a` with version `b:1` (same group) are different selectors with the same key. |
| `ResolveIvyFactory.LayersOrder` | subprojects/core-impl/src/main/groovy/org/gradle/api/internal/artifacts/ivyservice/ivyresolve/ResolveIvyFactory.java:99-112 | A local repository gets only the local layer: no lock release, no override, no persistent cache. A remote one gets lock release, then override, then the persistent cache with its extractor, innermost first. The dynamic-resolve layer is present iff the repository is in dynamic-resolve mode, and comes right after that branch. The in-memory cache is outermost and occurs once. |
| `ResolveIvyFactory.WrapLayers` | subprojects/core-impl/src/main/groovy/org/gradle/api/internal/artifacts/ivyservice/ivyresolve/ResolveIvyFactory.java:99-112 | The step-by-step reassignments of the stack produce exactly the layers `Layers` describes, around the unchanged connector; `LayersOrder` gives their order. |
| `ResolveIvyFactory.PrepareWiring` | subprojects/core-impl/src/main/groovy/org/gradle/api/internal/artifacts/ivyservice/ivyresolve/ResolveIvyFactory.java:87-94 | A connector keeps all five declared facts (id, local, dynamic-resolve mode, Ivy-aware, external-resource resolver). It is contextualized iff it is Ivy-aware. It has a repository chain iff it is an external-resource resolver, and that chain is the parent-lookup façade, not the raw chain. |
| `ResolveIvyFactory.CacheKeyOfDeclaredRepository` | subprojects/core-impl/src/main/groovy/org/gradle/api/internal/artifacts/ivyservice/ivyresolve/ResolveIvyFactory.java:104-106 | In the stack of a declared remote repository, the persistent cache layer uses the legacy extractor iff the declared repository is Ivy-aware, and the default extractor otherwise. |
| `ResolveIvyFactory.AssembleAt` | subprojects/core-impl/src/main/groovy/org/gradle/api/internal/artifacts/ivyservice/ivyresolve/ResolveIvyFactory.java:86-114 | The assembled chain has one stack per declared repository, at the repository's own position. Each stack holds that repository's prepared connector and its layers. |
| `ResolveIvyFactory.Create` | subprojects/core-impl/src/main/groovy/org/gradle/api/internal/artifacts/ivyservice/ivyresolve/ResolveIvyFactory.java:75-117 | The returned chain is fresh and holds exactly `Assemble` of the declared repositories, appended once each, in order. The parent-lookup façade wraps this chain's own resolvers and the given lock manager. |
| `ResolveIvyFactory.UserResolverChain.Add` | subprojects/core-impl/src/main/groovy/org/gradle/api/internal/artifacts/ivyservice/ivyresolve/ResolveIvyFactory.java:113 | The stack is appended at the end of the chain, and the chain is otherwise unchanged. |
| `ResolveIvyFactory.ParentModuleLookupResolver.constructor` | subprojects/core-impl/src/main/groovy/org/gradle/api/internal/artifacts/ivyservice/ivyresolve/ResolveIvyFactory.java:154-158 | The façade delegates to the chain's dependency resolver and artifact resolver, and uses the given lock manager. |
| `ResolveIvyFactory.ParentModuleLookupResolver.GetArtifactResolver` | subprojects/core-impl/src/main/groovy/org/gradle/api/internal/artifacts/ivyservice/ivyresolve/ResolveIvyFactory.java:160-162 | It returns the façade itself. |
| `ResolveIvyFactory.ParentModuleLookupResolver.GetDependencyResolver` | subprojects/core-impl/src/main/groovy/org/gradle/api/internal/artifacts/ivyservice/ivyresolve/ResolveIvyFactory.java:164-166 | It returns the façade itself. |
| `ResolveIvyFactory.ParentModuleLookupResolver.Resolve` | subprojects/core-impl/src/main/groovy/org/gradle/api/internal/artifacts/ivyservice/ivyresolve/ResolveIvyFactory.java:168-174 | The manager moves exactly as `Run` of a `useCache` around the one call: acquire and release only if the lock was free, with the call in between. It calls the chain's dependency resolver exactly once, with the lock held, with the same dependency and result. The lock state is restored, and the result and the outcome are the resolver's. |
| `ResolveIvyFactory.ParentModuleLookupResolver.ResolveModuleArtifactsByType` | subprojects/core-impl/src/main/groovy/org/gradle/api/internal/artifacts/ivyservice/ivyresolve/ResolveIvyFactory.java:176-182 | The manager moves exactly as `Run` of a `useCache` around the one call. It calls the chain's artifact resolver exactly once, with the lock held, with the same component, artifact type and result. The lock state is restored. |
| `ResolveIvyFactory.ParentModuleLookupResolver.ResolveModuleArtifactsByUsage` | subprojects/core-impl/src/main/groovy/org/gradle/api/internal/artifacts/ivyservice/ivyresolve/ResolveIvyFactory.java:184-190 | The same as the row above, with the same component, usage and result. |
| `ResolveIvyFactory.ParentModuleLookupResolver.ResolveArtifact` | subprojects/core-impl/src/main/groovy/org/gradle/api/internal/artifacts/ivyservice/ivyresolve/ResolveIvyFactory.java:192-198 | The same, with the same artifact, source and result, passed to the chain's artifact resolver. |

## Left out

- Ivy integration (`ivyContextualize`, `createResolveData`, the loopback resolver registered into the global Ivy settings). These are calls into a foreign library's global state. The model records only that an Ivy-aware connector has been contextualized.
- `startParameterResolutionOverride.addResolutionRules` and reading the resolution rules and cache policy from the configuration. Their effect lies inside collaborators that are not part of this model.
- The internals of the local, caching, start-parameter override, dynamic-resolve and in-memory layers. They are layer tags. The model does not capture that the override may substitute a different repository.
- `UserResolverChain` is not part of this model. Its `add` is taken to append. Its multi-repository resolution, version matching and latest strategy are a fixed `chainResolution` behaviour given to `Create`.
- The stacks built by `Create` are values. The dispatch classes work on recording stand-ins for repositories rather than on those stacks, because there is no dynamic dispatch here. So the lock-releasing layer tag and the lock-releasing class are related by name, not by a proof.
- The real cache-locking manager (cross-process file locks, threads, concurrency) and the description strings. Only the held/released contract and the trace are modelled. Exit guards always run, which stands for the manager's restore-on-exception.
- `BaseModuleComponentRepository` is not part of this model. `GetId` and `GetLocalAccess` are taken to delegate to the wrapped repository.
- `Transformers.cast` is not part of this model. A non-chain source is taken to raise a cast failure.
- The insertion order kept by the repository map. Lookups never observe it.
- Network and file transport, and cache persistence. Collaborators reply through fixed behaviours.
- The four kinds of buildable result are one `ResolveResult` class holding an optional answer.
