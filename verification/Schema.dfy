/** The relational store as a value: one finite map per table, keyed by the
    row's primary key, and the integrity rules the storage engine enforces. */
module Schema {
  import opened Entities

  datatype Tables = Tables(
    users: map<string, ClusterUser>,
    credentials: map<string, ClusterCredentials>,
    environments: map<string, ManagedEnvironment>,
    engineClusters: map<string, GitopsEngineCluster>,
    engineInstances: map<string, GitopsEngineInstance>,
    clusterAccess: set<ClusterAccess>,
    applications: map<string, Application>,
    applicationStates: map<string, ApplicationState>,
    operations: map<string, Operation>)

  // Every row is stored under its own primary key.

  ghost predicate UsersKeyed(m: map<string, ClusterUser>) {
    forall id | id in m :: m[id].clusterUserId == id
  }
  ghost predicate CredentialsKeyed(m: map<string, ClusterCredentials>) {
    forall id | id in m :: m[id].clusterCredentialsId == id
  }
  ghost predicate EnvironmentsKeyed(m: map<string, ManagedEnvironment>) {
    forall id | id in m :: m[id].managedEnvironmentId == id
  }
  ghost predicate EngineClustersKeyed(m: map<string, GitopsEngineCluster>) {
    forall id | id in m :: m[id].gitopsEngineClusterId == id
  }
  ghost predicate EngineInstancesKeyed(m: map<string, GitopsEngineInstance>) {
    forall id | id in m :: m[id].gitopsEngineInstanceId == id
  }
  ghost predicate ApplicationsKeyed(m: map<string, Application>) {
    forall id | id in m :: m[id].applicationId == id
  }
  ghost predicate ApplicationStatesKeyed(m: map<string, ApplicationState>) {
    forall id | id in m :: m[id].applicationId == id
  }
  ghost predicate OperationsKeyed(m: map<string, Operation>) {
    forall id | id in m :: m[id].operationId == id
  }

  ghost predicate KeysMatch(t: Tables) {
    && UsersKeyed(t.users)
    && CredentialsKeyed(t.credentials)
    && EnvironmentsKeyed(t.environments)
    && EngineClustersKeyed(t.engineClusters)
    && EngineInstancesKeyed(t.engineInstances)
    && ApplicationsKeyed(t.applications)
    && ApplicationStatesKeyed(t.applicationStates)
    && OperationsKeyed(t.operations)
  }

  // Referential integrity: every foreign key names an existing row.

  ghost predicate EnvironmentsResolve(envs: map<string, ManagedEnvironment>, creds: map<string, ClusterCredentials>) {
    forall id | id in envs :: envs[id].clusterCredentialsId in creds
  }
  ghost predicate EngineClustersResolve(clusters: map<string, GitopsEngineCluster>, creds: map<string, ClusterCredentials>) {
    forall id | id in clusters :: clusters[id].clusterCredentialsId in creds
  }
  ghost predicate EngineInstancesResolve(instances: map<string, GitopsEngineInstance>, clusters: map<string, GitopsEngineCluster>) {
    forall id | id in instances :: instances[id].engineClusterId in clusters
  }
  ghost predicate GrantsResolve(access: set<ClusterAccess>, users: map<string, ClusterUser>,
                                envs: map<string, ManagedEnvironment>, instances: map<string, GitopsEngineInstance>) {
    forall g | g in access ::
      g.userId in users && g.managedEnvironmentId in envs && g.gitopsEngineInstanceId in instances
  }
  ghost predicate ApplicationsResolve(apps: map<string, Application>, envs: map<string, ManagedEnvironment>,
                                      instances: map<string, GitopsEngineInstance>) {
    forall id | id in apps :: apps[id].managedEnvironmentId in envs && apps[id].engineInstanceId in instances
  }
  ghost predicate ApplicationStatesResolve(states: map<string, ApplicationState>, apps: map<string, Application>) {
    forall id | id in states :: id in apps
  }
  ghost predicate OperationsResolve(ops: map<string, Operation>, instances: map<string, GitopsEngineInstance>,
                                    users: map<string, ClusterUser>) {
    forall id | id in ops :: ops[id].instanceId in instances && ops[id].ownerUserId in users
  }

  ghost predicate Intact(t: Tables) {
    && EnvironmentsResolve(t.environments, t.credentials)
    && EngineClustersResolve(t.engineClusters, t.credentials)
    && EngineInstancesResolve(t.engineInstances, t.engineClusters)
    && GrantsResolve(t.clusterAccess, t.users, t.environments, t.engineInstances)
    && ApplicationsResolve(t.applications, t.environments, t.engineInstances)
    && ApplicationStatesResolve(t.applicationStates, t.applications)
    && OperationsResolve(t.operations, t.engineInstances, t.users)
  }

  ghost predicate WellFormed(t: Tables) {
    KeysMatch(t) && Intact(t)
  }

  // A row that some other row references cannot be deleted: the storage
  // engine rejects the statement. The predicates below name the referencing rows.

  predicate UserInUse(t: Tables, id: string) {
    || (exists g | g in t.clusterAccess :: g.userId == id)
    || (exists k | k in t.operations :: t.operations[k].ownerUserId == id)
  }

  predicate CredentialsInUse(t: Tables, id: string) {
    || (exists k | k in t.environments :: t.environments[k].clusterCredentialsId == id)
    || (exists k | k in t.engineClusters :: t.engineClusters[k].clusterCredentialsId == id)
  }

  predicate EnvironmentInUse(t: Tables, id: string) {
    || (exists g | g in t.clusterAccess :: g.managedEnvironmentId == id)
    || (exists k | k in t.applications :: t.applications[k].managedEnvironmentId == id)
  }

  predicate EngineClusterInUse(t: Tables, id: string) {
    exists k | k in t.engineInstances :: t.engineInstances[k].engineClusterId == id
  }

  predicate EngineInstanceInUse(t: Tables, id: string) {
    || (exists g | g in t.clusterAccess :: g.gitopsEngineInstanceId == id)
    || (exists k | k in t.applications :: t.applications[k].engineInstanceId == id)
    || (exists k | k in t.operations :: t.operations[k].instanceId == id)
  }

  predicate ApplicationInUse(t: Tables, id: string) {
    id in t.applicationStates
  }

  /** Lists every element of a table once, in an order the storage engine
      chooses: each step takes an arbitrary element not yet listed. */
  method Enumerate<T(==)>(s: set<T>) returns (xs: seq<T>)
    ensures |xs| == |s|
    ensures forall j | 0 <= j < |xs| :: xs[j] in s
    ensures forall x | x in s :: x in xs
    ensures forall i, j | 0 <= i < j < |xs| :: xs[i] != xs[j]
  {
    xs := [];
    var rest := s;
    while rest != {}
      invariant rest <= s
      invariant |xs| + |rest| == |s|
      invariant forall j | 0 <= j < |xs| :: xs[j] in s && xs[j] !in rest
      invariant forall x | x in s :: x in xs || x in rest
      invariant forall i, j | 0 <= i < j < |xs| :: xs[i] != xs[j]
      decreases rest
    {
      var x :| x in rest;
      xs := xs + [x];
      rest := rest - {x};
    }
  }
}
