/** The ownership graph: which rows a ClusterAccess grant lets a user reach.
    Every checked operation asks one of these predicates. A missing grant and
    a missing referenced row both give "not authorized". */
module Ownership {
  import opened Entities
  import opened Schema

  /** Some grant of the user names the environment. */
  predicate EnvironmentAuthorized(t: Tables, userId: string, environmentId: string) {
    exists g | g in t.clusterAccess :: g.userId == userId && g.managedEnvironmentId == environmentId
  }

  /** Some grant of the user names the engine instance. */
  predicate EngineInstanceAuthorized(t: Tables, userId: string, instanceId: string) {
    exists g | g in t.clusterAccess :: g.userId == userId && g.gitopsEngineInstanceId == instanceId
  }

  /** Some grant of the user names an engine instance that runs on the cluster. */
  predicate EngineClusterAuthorized(t: Tables, userId: string, clusterId: string) {
    exists g | g in t.clusterAccess ::
      && g.userId == userId
      && g.gitopsEngineInstanceId in t.engineInstances
      && t.engineInstances[g.gitopsEngineInstanceId].engineClusterId == clusterId
  }

  /** The user may reach an environment or an engine cluster that uses the credentials. */
  predicate CredentialsAuthorized(t: Tables, userId: string, credentialsId: string) {
    || (exists e | e in t.environments ::
          t.environments[e].clusterCredentialsId == credentialsId && EnvironmentAuthorized(t, userId, e))
    || (exists c | c in t.engineClusters ::
          t.engineClusters[c].clusterCredentialsId == credentialsId && EngineClusterAuthorized(t, userId, c))
  }

  /** The user holds a grant naming exactly the application's (environment, instance) pair. */
  predicate ApplicationAuthorized(t: Tables, userId: string, app: Application) {
    ClusterAccess(userId, app.managedEnvironmentId, app.engineInstanceId) in t.clusterAccess
  }

  /** Operations are owned directly: no walk through the grant table. */
  predicate OperationAuthorized(userId: string, op: Operation) {
    op.ownerUserId == userId
  }

  /** A grant reaches the engine cluster its instance runs on. */
  lemma GrantReachesEngineCluster(t: Tables, g: ClusterAccess)
    requires Intact(t)
    requires g in t.clusterAccess
    ensures g.gitopsEngineInstanceId in t.engineInstances
    ensures EngineClusterAuthorized(t, g.userId, t.engineInstances[g.gitopsEngineInstanceId].engineClusterId)
  {
  }

  /** A grant reaches the credentials of its environment and of its instance's cluster. */
  lemma GrantReachesCredentials(t: Tables, g: ClusterAccess)
    requires Intact(t)
    requires g in t.clusterAccess
    ensures CredentialsAuthorized(t, g.userId, t.environments[g.managedEnvironmentId].clusterCredentialsId)
    ensures var cluster := t.engineInstances[g.gitopsEngineInstanceId].engineClusterId;
            CredentialsAuthorized(t, g.userId, t.engineClusters[cluster].clusterCredentialsId)
  {
  }

  /** Conversely, every authorized credentials row is reached by one of the user's
      grants, through its environment or through its instance's cluster. */
  lemma CredentialsNeedGrant(t: Tables, userId: string, credentialsId: string)
    requires Intact(t)
    requires CredentialsAuthorized(t, userId, credentialsId)
    ensures exists g | g in t.clusterAccess :: g.userId == userId && ReachesCredentials(t, g, credentialsId)
  {
  }

  /** The credentials a grant reaches. */
  ghost predicate ReachesCredentials(t: Tables, g: ClusterAccess, credentialsId: string)
    requires Intact(t) && g in t.clusterAccess
  {
    || t.environments[g.managedEnvironmentId].clusterCredentialsId == credentialsId
    || t.engineClusters[t.engineInstances[g.gitopsEngineInstanceId].engineClusterId].clusterCredentialsId
       == credentialsId
  }

  /** Grant-scoped visibility: when every grant naming an environment belongs to
      one user, no other user is authorized for it. */
  lemma OnlyGranteeSeesEnvironment(t: Tables, environmentId: string, grantee: string, other: string)
    requires forall g | g in t.clusterAccess && g.managedEnvironmentId == environmentId :: g.userId == grantee
    requires other != grantee
    ensures !EnvironmentAuthorized(t, other, environmentId)
  {
  }

  /** In an intact store an authorization is only ever granted for rows that exist. */
  lemma AuthorizedRowsExist(t: Tables, userId: string, id: string)
    requires Intact(t)
    ensures EnvironmentAuthorized(t, userId, id) ==> id in t.environments
    ensures EngineInstanceAuthorized(t, userId, id) ==> id in t.engineInstances
    ensures EngineClusterAuthorized(t, userId, id) ==> id in t.engineClusters
    ensures CredentialsAuthorized(t, userId, id) ==> id in t.credentials
  {
  }
}
