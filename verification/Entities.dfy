/** The records stored in each table. Every identifier is an opaque,
    caller-assigned string; relationships are plain foreign-key strings. */
module Entities {

  datatype ClusterUser = ClusterUser(clusterUserId: string, userName: string)

  datatype ClusterCredentials = ClusterCredentials(
    clusterCredentialsId: string,
    host: string,
    kubeConfig: string,
    kubeConfigContext: string,
    serviceAccountBearerToken: string,
    serviceAccountNs: string)

  datatype ManagedEnvironment = ManagedEnvironment(
    managedEnvironmentId: string,
    name: string,
    clusterCredentialsId: string)

  datatype GitopsEngineCluster = GitopsEngineCluster(
    gitopsEngineClusterId: string,
    clusterCredentialsId: string)

  datatype GitopsEngineInstance = GitopsEngineInstance(
    gitopsEngineInstanceId: string,
    namespaceName: string,
    namespaceUid: string,
    engineClusterId: string)

  /** A grant: the user may act on the (environment, engine instance) pair.
      The row is its own composite key. */
  datatype ClusterAccess = ClusterAccess(
    userId: string,
    managedEnvironmentId: string,
    gitopsEngineInstanceId: string)

  datatype Application = Application(
    applicationId: string,
    name: string,
    specField: string,
    engineInstanceId: string,
    managedEnvironmentId: string)

  /** One status row per application, keyed by the application's id. */
  datatype ApplicationState = ApplicationState(applicationId: string, status: string)

  datatype OperationState = Waiting | InProgress | Completed | Failed

  datatype Operation = Operation(
    operationId: string,
    instanceId: string,
    resourceId: string,
    resourceType: string,
    state: OperationState,
    ownerUserId: string)

  // The primary key of each keyed row, as a function value for code that
  // walks any table the same way.

  function ClusterUserKey(r: ClusterUser): string { r.clusterUserId }
  function ClusterCredentialsKey(r: ClusterCredentials): string { r.clusterCredentialsId }
  function ManagedEnvironmentKey(r: ManagedEnvironment): string { r.managedEnvironmentId }
  function GitopsEngineClusterKey(r: GitopsEngineCluster): string { r.gitopsEngineClusterId }
  function GitopsEngineInstanceKey(r: GitopsEngineInstance): string { r.gitopsEngineInstanceId }
  function ApplicationKey(r: Application): string { r.applicationId }
  function ApplicationStateKey(r: ApplicationState): string { r.applicationId }
  function OperationKey(r: Operation): string { r.operationId }
}
