/** Collaborators whose code lies outside this layer: the mutable result objects, the
    access entry points of the configured repositories, and the repositories as the
    dispatch layer sees them. Each entry point is a recording stand-in: it logs the
    call, with the lock state it runs under, into the lock manager's trace, and
    replies as its fixed `behaviour` says. The two scope bridges at the end run one
    delegate call inside `useCache` or `longRunningOperation`. */
module Collaborators {
  import opened Types
  import opened Locking

  /** A buildable resolve result: empty until some stage stores an answer. */
  class ResolveResult {
    var value: Option<Answer>

    constructor ()
      ensures value == None
    {
      value := None;
    }

    predicate HasResult()
      reads this
    {
      value.Some?
    }
  }

  /** One entry point of a collaborator (a repository's local or remote access,
      its resolveArtifact, or a resolver chain's resolver). */
  class RepositoryAccess {
    const endpoint: Endpoint
    const behaviour: Request -> Reply

    constructor (endpoint: Endpoint, behaviour: Request -> Reply)
      ensures this.endpoint == endpoint && this.behaviour == behaviour
    {
      this.endpoint := endpoint;
      this.behaviour := behaviour;
    }

    method Invoke(request: Request, result: ResolveResult, manager: CacheLockingManager) returns (outcome: Outcome)
      modifies result, manager
      ensures manager.State() == Log(old(manager.State()), endpoint, request)
      ensures result.value == Apply(old(result.value), behaviour(request))
      ensures outcome == OutcomeOf(behaviour(request))
    {
      manager.LogInvocation(endpoint, request);
      var reply := behaviour(request);
      if reply.Found? {
        result.value := Some(reply.answer);
      }
      outcome := OutcomeOf(reply);
    }
  }

  /** A configured repository as the dispatch layer sees it: an id, a local and a
      remote access, and its own resolveArtifact entry point. */
  class ModuleComponentRepository {
    const id: RepositoryId
    const localAccess: RepositoryAccess
    const remoteAccess: RepositoryAccess
    const artifactAccess: RepositoryAccess

    /** Every entry point is labelled with this repository's id. */
    ghost predicate Valid() {
      && localAccess.endpoint == Endpoint(id, LocalAccess)
      && remoteAccess.endpoint == Endpoint(id, RemoteAccess)
      && artifactAccess.endpoint == Endpoint(id, RepositoryEntry)
    }

    constructor (id: RepositoryId, local: Request -> Reply, remote: Request -> Reply, artifacts: Request -> Reply)
      ensures Valid() && this.id == id
      ensures localAccess.behaviour == local && remoteAccess.behaviour == remote && artifactAccess.behaviour == artifacts
    {
      this.id := id;
      localAccess := new RepositoryAccess(Endpoint(id, LocalAccess), local);
      remoteAccess := new RepositoryAccess(Endpoint(id, RemoteAccess), remote);
      artifactAccess := new RepositoryAccess(Endpoint(id, RepositoryEntry), artifacts);
    }
  }

  /** `cacheLockingManager.useCache(description, () -> access.invoke(request, result))`. */
  method UseCache(manager: CacheLockingManager, access: RepositoryAccess, request: Request, result: ResolveResult)
    returns (outcome: Outcome)
    modifies manager, result
    ensures manager.State() == Run(old(manager.State()), UseCacheOp(CallOp(access.endpoint, request)))
    ensures result.value == Apply(old(result.value), access.behaviour(request))
    ensures outcome == OutcomeOf(access.behaviour(request))
  {
    var prior := manager.BeginUseCache();
    outcome := access.Invoke(request, result, manager);
    manager.EndUseCache(prior);
  }

  /** `cacheLockingManager.longRunningOperation(description, () -> access.invoke(request, result))`. */
  method LongRunningOperation(manager: CacheLockingManager, access: RepositoryAccess, request: Request, result: ResolveResult)
    returns (outcome: Outcome)
    modifies manager, result
    ensures manager.State() == Run(old(manager.State()), LongRunningOp(CallOp(access.endpoint, request)))
    ensures result.value == Apply(old(result.value), access.behaviour(request))
    ensures outcome == OutcomeOf(access.behaviour(request))
  {
    var prior := manager.BeginLongRunning();
    outcome := access.Invoke(request, result, manager);
    manager.EndLongRunning(prior);
  }
}
