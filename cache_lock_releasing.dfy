/** The decorator that releases the cache lock around every remote call of the
    repository it wraps. Its remote access is a lock-releasing wrapper around the
    wrapped repository's remote access, built once when the decorator is built; its
    own resolveArtifact runs the wrapped repository's resolveArtifact the same way.
    Local access is inherited from the base decorator and is the wrapped repository's
    own. Arguments and the result object are handed on unchanged. */
module CacheLockReleasing {
  import opened Types
  import opened Locking
  import opened Collaborators

  /** The remote access of a lock-releasing repository: each operation calls the
      delegate once inside `longRunningOperation`. */
  class LockReleasingRepositoryAccess {
    const name: RepositoryId
    const delegate: RepositoryAccess
    const cacheLockingManager: CacheLockingManager

    constructor (name: RepositoryId, delegate: RepositoryAccess, cacheLockingManager: CacheLockingManager)
      ensures this.name == name && this.delegate == delegate && this.cacheLockingManager == cacheLockingManager
    {
      this.name := name;
      this.delegate := delegate;
      this.cacheLockingManager := cacheLockingManager;
    }

    /** Runs `request` on the delegate without the lock; the shared body of the four
        operations below. */
    method Released(request: Request, result: ResolveResult) returns (outcome: Outcome)
      modifies cacheLockingManager, result
      ensures cacheLockingManager.State() == Run(old(cacheLockingManager.State()), LongRunningOp(CallOp(delegate.endpoint, request)))
      ensures cacheLockingManager.held == old(cacheLockingManager.held)
      ensures Invocations(cacheLockingManager.events[|old(cacheLockingManager.events)|..]) == [Invoked(delegate.endpoint, request, false)]
      ensures result.value == Apply(old(result.value), delegate.behaviour(request))
      ensures outcome == OutcomeOf(delegate.behaviour(request))
    {
      ghost var before := cacheLockingManager.State();
      outcome := LongRunningOperation(cacheLockingManager, delegate, request, result);
      LongRunningCallIsUnlocked(before, delegate.endpoint, request);
    }

    method ListModuleVersions(dependency: DependencyMetaData, result: ResolveResult) returns (outcome: Outcome)
      modifies cacheLockingManager, result
      ensures cacheLockingManager.State() == Run(old(cacheLockingManager.State()), LongRunningOp(CallOp(delegate.endpoint, Request.ListModuleVersions(dependency))))
      ensures cacheLockingManager.held == old(cacheLockingManager.held)
      ensures old(cacheLockingManager.events) <= cacheLockingManager.events
      ensures Invocations(cacheLockingManager.events[|old(cacheLockingManager.events)|..])
           == [Invoked(delegate.endpoint, Request.ListModuleVersions(dependency), false)]
      ensures result.value == Apply(old(result.value), delegate.behaviour(Request.ListModuleVersions(dependency)))
      ensures outcome == OutcomeOf(delegate.behaviour(Request.ListModuleVersions(dependency)))
    {
      outcome := Released(Request.ListModuleVersions(dependency), result);
    }

    method ResolveComponentMetaData(dependency: DependencyMetaData, componentId: ModuleComponentIdentifier, result: ResolveResult)
      returns (outcome: Outcome)
      modifies cacheLockingManager, result
      ensures cacheLockingManager.State() == Run(old(cacheLockingManager.State()), LongRunningOp(CallOp(delegate.endpoint, Request.ResolveComponentMetaData(dependency, componentId))))
      ensures cacheLockingManager.held == old(cacheLockingManager.held)
      ensures old(cacheLockingManager.events) <= cacheLockingManager.events
      ensures Invocations(cacheLockingManager.events[|old(cacheLockingManager.events)|..])
           == [Invoked(delegate.endpoint, Request.ResolveComponentMetaData(dependency, componentId), false)]
      ensures result.value == Apply(old(result.value), delegate.behaviour(Request.ResolveComponentMetaData(dependency, componentId)))
      ensures outcome == OutcomeOf(delegate.behaviour(Request.ResolveComponentMetaData(dependency, componentId)))
    {
      outcome := Released(Request.ResolveComponentMetaData(dependency, componentId), result);
    }

    method ResolveModuleArtifactsByType(component: ComponentMetaData, artifactType: ArtifactType, result: ResolveResult)
      returns (outcome: Outcome)
      modifies cacheLockingManager, result
      ensures cacheLockingManager.State() == Run(old(cacheLockingManager.State()), LongRunningOp(CallOp(delegate.endpoint, Request.ResolveModuleArtifactsByType(component, artifactType))))
      ensures cacheLockingManager.held == old(cacheLockingManager.held)
      ensures old(cacheLockingManager.events) <= cacheLockingManager.events
      ensures Invocations(cacheLockingManager.events[|old(cacheLockingManager.events)|..])
           == [Invoked(delegate.endpoint, Request.ResolveModuleArtifactsByType(component, artifactType), false)]
      ensures result.value == Apply(old(result.value), delegate.behaviour(Request.ResolveModuleArtifactsByType(component, artifactType)))
      ensures outcome == OutcomeOf(delegate.behaviour(Request.ResolveModuleArtifactsByType(component, artifactType)))
    {
      outcome := Released(Request.ResolveModuleArtifactsByType(component, artifactType), result);
    }

    method ResolveModuleArtifactsByUsage(component: ComponentMetaData, usage: ComponentUsage, result: ResolveResult)
      returns (outcome: Outcome)
      modifies cacheLockingManager, result
      ensures cacheLockingManager.State() == Run(old(cacheLockingManager.State()), LongRunningOp(CallOp(delegate.endpoint, Request.ResolveModuleArtifactsByUsage(component, usage))))
      ensures cacheLockingManager.held == old(cacheLockingManager.held)
      ensures old(cacheLockingManager.events) <= cacheLockingManager.events
      ensures Invocations(cacheLockingManager.events[|old(cacheLockingManager.events)|..])
           == [Invoked(delegate.endpoint, Request.ResolveModuleArtifactsByUsage(component, usage), false)]
      ensures result.value == Apply(old(result.value), delegate.behaviour(Request.ResolveModuleArtifactsByUsage(component, usage)))
      ensures outcome == OutcomeOf(delegate.behaviour(Request.ResolveModuleArtifactsByUsage(component, usage)))
    {
      outcome := Released(Request.ResolveModuleArtifactsByUsage(component, usage), result);
    }
  }

  class CacheLockReleasingModuleComponentsRepository {
    const repository: ModuleComponentRepository
    const cacheLockingManager: CacheLockingManager
    const remoteAccess: LockReleasingRepositoryAccess

    /** The remote access wraps the wrapped repository's remote access, is labelled
        with its id and shares this decorator's lock manager. */
    ghost predicate Valid() {
      && remoteAccess.name == repository.id
      && remoteAccess.delegate == repository.remoteAccess
      && remoteAccess.cacheLockingManager == cacheLockingManager
    }

    constructor (repository: ModuleComponentRepository, cacheLockingManager: CacheLockingManager)
      ensures Valid() && fresh(remoteAccess)
      ensures this.repository == repository && this.cacheLockingManager == cacheLockingManager
    {
      this.remoteAccess := new LockReleasingRepositoryAccess(repository.id, repository.remoteAccess, cacheLockingManager);
      this.repository := repository;
      this.cacheLockingManager := cacheLockingManager;
    }

    /** The id, inherited from the base decorator: that of the wrapped repository. */
    function GetId(): RepositoryId {
      repository.id
    }

    /** Local access, inherited from the base decorator: the wrapped repository's
        own, with no lock operation around it. */
    method GetLocalAccess() returns (access: RepositoryAccess)
      ensures access == repository.localAccess
    {
      access := repository.localAccess;
    }

    /** The one lock-releasing wrapper built by the constructor, around the wrapped
        repository's remote access. */
    method GetRemoteAccess() returns (access: LockReleasingRepositoryAccess)
      requires Valid()
      ensures access == remoteAccess
      ensures access.delegate == repository.remoteAccess && access.name == GetId()
      ensures access.cacheLockingManager == cacheLockingManager
    {
      access := remoteAccess;
    }

    method ResolveArtifact(artifact: ComponentArtifactMetaData, moduleSource: ModuleSource, result: ResolveResult)
      returns (outcome: Outcome)
      modifies cacheLockingManager, result
      ensures cacheLockingManager.State()
           == Run(old(cacheLockingManager.State()), LongRunningOp(CallOp(repository.artifactAccess.endpoint, Request.ResolveArtifact(artifact, moduleSource))))
      ensures cacheLockingManager.held == old(cacheLockingManager.held)
      ensures old(cacheLockingManager.events) <= cacheLockingManager.events
      ensures Invocations(cacheLockingManager.events[|old(cacheLockingManager.events)|..])
           == [Invoked(repository.artifactAccess.endpoint, Request.ResolveArtifact(artifact, moduleSource), false)]
      ensures result.value == Apply(old(result.value), repository.artifactAccess.behaviour(Request.ResolveArtifact(artifact, moduleSource)))
      ensures outcome == OutcomeOf(repository.artifactAccess.behaviour(Request.ResolveArtifact(artifact, moduleSource)))
    {
      ghost var before := cacheLockingManager.State();
      outcome := LongRunningOperation(cacheLockingManager, repository.artifactAccess, Request.ResolveArtifact(artifact, moduleSource), result);
      LongRunningCallIsUnlocked(before, repository.artifactAccess.endpoint, Request.ResolveArtifact(artifact, moduleSource));
    }
  }
}
