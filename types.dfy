/** Values that flow through the repository dispatch layer: selectors, components,
    provenance-tagged module sources, requests and the replies of collaborators. */
module Types {

  datatype Option<+T> = None | Some(value: T)

  /** Why a call through this layer did not complete normally. */
  datatype Error =
    | InvalidRepository        // IllegalStateException: the source names no registered repository
    | NotRepositoryChainSource // the cast to a repository-chain source failed
    | Raised(message: string)  // whatever a collaborator threw, passed on unchanged

  datatype Result<+T> = Success(value: T) | Failure(error: Error)

  /** How a void call ended: normally, or by an exception. */
  datatype Outcome = Completed | Threw(error: Error)

  /** The stable id of a configured repository. */
  type RepositoryId = string

  datatype ModuleVersionSelector = ModuleVersionSelector(group: string, name: string, version: string)

  datatype ModuleIdentifier = ModuleIdentifier(group: string, name: string)

  datatype ModuleComponentIdentifier = ModuleComponentIdentifier(group: string, moduleName: string, version: string)

  datatype DependencyMetaData = DependencyMetaData(requested: ModuleVersionSelector)

  /** Where a resolved component or artifact was found. A repository-chain source
      names the repository that produced it and carries the delegate source that
      only that repository understands; any other source is opaque here. */
  datatype ModuleSource =
    | Chain(tag: RepositoryChainModuleSource)
    | Opaque(token: string)

  datatype RepositoryChainModuleSource = RepositoryChainModuleSource(repositoryId: RepositoryId, delegate: ModuleSource)

  datatype ComponentMetaData = ComponentMetaData(id: ModuleComponentIdentifier, source: ModuleSource)
  {
    /** A copy of this component that carries the given source. */
    function WithSource(newSource: ModuleSource): ComponentMetaData {
      this.(source := newSource)
    }
  }

  datatype ComponentArtifactMetaData = ComponentArtifactMetaData(componentId: ModuleComponentIdentifier, name: string)

  datatype ArtifactType = ArtifactType(name: string)

  datatype ComponentUsage = ComponentUsage(configurationName: string)

  /** One call of a repository-access or resolver operation, with its arguments. */
  datatype Request =
    | ListModuleVersions(dependency: DependencyMetaData)
    | ResolveComponentMetaData(dependency: DependencyMetaData, componentId: ModuleComponentIdentifier)
    | ResolveModuleArtifactsByType(component: ComponentMetaData, artifactType: ArtifactType)
    | ResolveModuleArtifactsByUsage(component: ComponentMetaData, usage: ComponentUsage)
    | ResolveArtifact(artifact: ComponentArtifactMetaData, source: ModuleSource)
    | ResolveDependency(dependency: DependencyMetaData)

  /** Whatever a collaborator stores into a result object. */
  datatype Answer = Answer(payload: string)

  /** What a collaborator does when called: fill the result, leave it empty, or throw. */
  datatype Reply = Found(answer: Answer) | NotFound | Fails(message: string)

  /** The result value after a collaborator has replied: a found answer is stored,
      anything else leaves the result as it was. */
  function Apply(before: Option<Answer>, reply: Reply): Option<Answer> {
    if reply.Found? then Some(reply.answer) else before
  }

  /** How the call ends, as seen by the caller. */
  function OutcomeOf(reply: Reply): Outcome {
    if reply.Fails? then Threw(Raised(reply.message)) else Completed
  }
}
