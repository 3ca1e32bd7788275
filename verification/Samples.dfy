/** generateSampleData and createSampleData: one linked chain of test rows
    (credentials -> environment and engine cluster -> engine instance -> grant
    for the test user), inserted parents first, stopping at the first error. */
module Samples {
  import opened Results
  import opened Entities
  import opened Schema
  import opened Ownership
  import opened Queries
  import opened Fixtures

  datatype SampleData = SampleData(
    credentials: ClusterCredentials,
    environment: ManagedEnvironment,
    engineCluster: GitopsEngineCluster,
    engineInstance: GitopsEngineInstance,
    clusterAccess: ClusterAccess)

  /** Each foreign key of the chain names the row created before it. */
  predicate Chained(d: SampleData) {
    && d.environment.clusterCredentialsId == d.credentials.clusterCredentialsId
    && d.engineCluster.clusterCredentialsId == d.credentials.clusterCredentialsId
    && d.engineInstance.engineClusterId == d.engineCluster.gitopsEngineClusterId
    && d.clusterAccess.managedEnvironmentId == d.environment.managedEnvironmentId
    && d.clusterAccess.gitopsEngineInstanceId == d.engineInstance.gitopsEngineInstanceId
  }

  /** Every sample key carries the prefix testSetup purges. */
  predicate TestKeyed(d: SampleData) {
    && HasTestPrefix(d.credentials.clusterCredentialsId)
    && HasTestPrefix(d.environment.managedEnvironmentId)
    && HasTestPrefix(d.engineCluster.gitopsEngineClusterId)
    && HasTestPrefix(d.engineInstance.gitopsEngineInstanceId)
  }

  /** The sample rows: a chain whose keys testSetup purges and whose grant
      gives the test user the sample (environment, instance) pair. */
  function GenerateSampleData(): (d: SampleData)
    ensures Chained(d) && TestKeyed(d)
    ensures d.clusterAccess.userId == TEST_CLUSTER_USER.clusterUserId
  {
    var credentials := ClusterCredentials("test-cluster-creds-test", "host", "kube-config", "kube-config-context",
                                          "serviceaccount_bearer_token", "Serviceaccount_ns");
    var environment := ManagedEnvironment("test-managed-env-914", "my env", credentials.clusterCredentialsId);
    var engineCluster := GitopsEngineCluster("test-fake-cluster-914", credentials.clusterCredentialsId);
    var engineInstance := GitopsEngineInstance("test-fake-engine-instance-id", "test-fake-namespace",
                                               "test-fake-namespace-914", engineCluster.gitopsEngineClusterId);
    var clusterAccess := ClusterAccess(TEST_CLUSTER_USER.clusterUserId, environment.managedEnvironmentId,
                                       engineInstance.gitopsEngineInstanceId);
    SampleData(credentials, environment, engineCluster, engineInstance, clusterAccess)
  }

  /** How many of the five creates succeed on the store: each one fails when
      its key is already taken, and nothing after a failure runs. */
  function SampleStepsDone(t: Tables, d: SampleData): nat {
    if d.credentials.clusterCredentialsId in t.credentials then 0
    else if d.environment.managedEnvironmentId in t.environments then 1
    else if d.engineCluster.gitopsEngineClusterId in t.engineClusters then 2
    else if d.engineInstance.gitopsEngineInstanceId in t.engineInstances then 3
    else if d.clusterAccess in t.clusterAccess then 4
    else 5
  }

  /** The store with the first n rows of the chain inserted. */
  function WithSampleRows(t: Tables, d: SampleData, n: nat): Tables {
    Tables(
      t.users,
      if n >= 1 then t.credentials[d.credentials.clusterCredentialsId := d.credentials] else t.credentials,
      if n >= 2 then t.environments[d.environment.managedEnvironmentId := d.environment] else t.environments,
      if n >= 3 then t.engineClusters[d.engineCluster.gitopsEngineClusterId := d.engineCluster] else t.engineClusters,
      if n >= 4 then t.engineInstances[d.engineInstance.gitopsEngineInstanceId := d.engineInstance]
      else t.engineInstances,
      if n >= 5 then t.clusterAccess + {d.clusterAccess} else t.clusterAccess,
      t.applications,
      t.applicationStates,
      t.operations)
  }

  /** createSampleData: the five creates in order, returning the first error. */
  method CreateSampleData(dbq: DatabaseQueries) returns (r: Result<SampleData>)
    requires dbq.Valid()
    requires TEST_CLUSTER_USER.clusterUserId in dbq.users
    modifies dbq`credentials, dbq`environments, dbq`engineClusters, dbq`engineInstances, dbq`clusterAccess
    ensures dbq.Valid()
    ensures var d := GenerateSampleData(); var n := SampleStepsDone(old(dbq.Snapshot()), d);
            && dbq.Snapshot() == WithSampleRows(old(dbq.Snapshot()), d, n)
            && (r.Ok? <==> n == 5)
            && (r.Ok? ==> r.value == d)
            && (r.Err? ==> r.error == ConstraintViolation)
  {
    var d := GenerateSampleData();
    var status := dbq.CreateClusterCredentials(d.credentials);
    if status.Failure? {
      return Err(status.error);
    }
    status := dbq.CreateManagedEnvironment(d.environment);
    if status.Failure? {
      return Err(status.error);
    }
    status := dbq.CreateGitopsEngineCluster(d.engineCluster);
    if status.Failure? {
      return Err(status.error);
    }
    status := dbq.CreateGitopsEngineInstance(d.engineInstance);
    if status.Failure? {
      return Err(status.error);
    }
    status := dbq.CreateClusterAccess(d.clusterAccess);
    // The environment was created above, so no grant can name it yet: on an
    // intact store this last create cannot fail.
    assert status == Success;
    return Ok(d);
  }

  // ------------------------------------------------------------------ the sample after testSetup

  /** The store createSampleData leaves when it runs right after testSetup. */
  function SampleLoaded(t: Tables): Tables {
    WithSampleRows(AfterSetup(t), GenerateSampleData(), 5)
  }

  /** Right after testSetup every sample key is free, so all five creates
      succeed, and the chain they insert keeps the store intact. */
  lemma SampleLoadsAfterSetup(t: Tables)
    requires WellFormed(t) && TestRowsSelfContained(t)
    ensures SampleStepsDone(AfterSetup(t), GenerateSampleData()) == 5
    ensures WellFormed(SampleLoaded(t))
  {
    var d := GenerateSampleData();
    var a := AfterSetup(t);
    SetupKeepsStoreIntact(t);
    assert d.credentials.clusterCredentialsId !in a.credentials;
    assert d.clusterAccess !in a.clusterAccess;
    SampleRowsKeepStoreIntact(a, d);
  }

  /** Every row of the chain is inserted under its own key. */
  lemma SampleRowsKeyed(a: Tables, d: SampleData)
    requires KeysMatch(a)
    ensures KeysMatch(WithSampleRows(a, d, 5))
  {
    var s := WithSampleRows(a, d, 5);
    assert CredentialsKeyed(s.credentials);
    assert EnvironmentsKeyed(s.environments);
  }

  /** Inserting a whole chain into an intact store that holds the grant's user
      keeps it intact: each row's parent is a row of the chain. */
  lemma SampleRowsKeepStoreIntact(a: Tables, d: SampleData)
    requires WellFormed(a) && Chained(d)
    requires d.clusterAccess.userId in a.users
    ensures WellFormed(WithSampleRows(a, d, 5))
  {
    var s := WithSampleRows(a, d, 5);
    SampleRowsKeyed(a, d);
    assert EnvironmentsResolve(s.environments, s.credentials);
    assert EngineClustersResolve(s.engineClusters, s.credentials);
    assert EngineInstancesResolve(s.engineInstances, s.engineClusters);
    assert GrantsResolve(s.clusterAccess, s.users, s.environments, s.engineInstances);
  }

  /** The chain's grant gives its user the environment, the instance, the
      cluster the instance runs on and the shared credentials. */
  lemma SampleVisibleToGrantee(a: Tables, d: SampleData)
    requires Chained(d)
    ensures var s := WithSampleRows(a, d, 5); var u := d.clusterAccess.userId;
            && EnvironmentAuthorized(s, u, d.environment.managedEnvironmentId)
            && EngineInstanceAuthorized(s, u, d.engineInstance.gitopsEngineInstanceId)
            && EngineClusterAuthorized(s, u, d.engineCluster.gitopsEngineClusterId)
            && CredentialsAuthorized(s, u, d.credentials.clusterCredentialsId)
  {
    var s := WithSampleRows(a, d, 5);
    var g := d.clusterAccess;
    assert g in s.clusterAccess;
    assert s.engineInstances[g.gitopsEngineInstanceId] == d.engineInstance;
    assert s.environments[g.managedEnvironmentId] == d.environment;
  }

  /** Only the chain refers to rows of the chain: its grant is the only grant
      naming its environment or instance, and no application, operation,
      other instance, other environment or other cluster refers to one of its rows. */
  ghost predicate OnlyChainRefersToChain(s: Tables, d: SampleData) {
    var env := d.environment.managedEnvironmentId;
    var instance := d.engineInstance.gitopsEngineInstanceId;
    && (forall g | g in s.clusterAccess && (g.managedEnvironmentId == env || g.gitopsEngineInstanceId == instance) ::
          g == d.clusterAccess)
    && (forall k | k in s.applications ::
          s.applications[k].managedEnvironmentId != env && s.applications[k].engineInstanceId != instance)
    && (forall k | k in s.operations :: s.operations[k].instanceId != instance)
    && (forall k | k in s.engineInstances && k != instance ::
          s.engineInstances[k].engineClusterId != d.engineCluster.gitopsEngineClusterId)
    && (forall k | k in s.environments && k != env ::
          s.environments[k].clusterCredentialsId != d.credentials.clusterCredentialsId)
    && (forall k | k in s.engineClusters && k != d.engineCluster.gitopsEngineClusterId ::
          s.engineClusters[k].clusterCredentialsId != d.credentials.clusterCredentialsId)
  }

  /** A chain inserted into an intact store where none of its keys was taken
      is referenced by nothing else: every older row's foreign keys name older rows. */
  lemma FreshChainReferencedOnlyByItself(a: Tables, d: SampleData)
    requires Intact(a)
    requires SampleStepsDone(a, d) == 5
    ensures OnlyChainRefersToChain(WithSampleRows(a, d, 5), d)
  {
    // Older grants name older rows, so none of them names the fresh environment or instance.
    assert forall g | g in a.clusterAccess :: g.managedEnvironmentId in a.environments;
    assert forall g | g in a.clusterAccess :: g.gitopsEngineInstanceId in a.engineInstances;
  }
}
