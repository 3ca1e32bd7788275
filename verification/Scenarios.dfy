/** The test functions of the file, each replayed against the store. Every
    test starts from testSetup (and most from createSampleData); each
    assertion the test makes on a returned error, record or row count is an
    `assert` here, proved for every starting store whose test rows are
    referenced only by test rows. */
module Scenarios {
  import opened Results
  import opened Entities
  import opened Schema
  import opened Ownership
  import opened Queries
  import opened Fixtures
  import opened Samples

  /** Inserting a fresh key and deleting it again leaves the table as it was. */
  lemma InsertThenRemove<V>(m: map<string, V>, k: string, v: V)
    requires k !in m
    ensures m[k := v] - {k} == m
  {
  }

  /** The opening of most tests: testSetup, then createSampleData, which must succeed. */
  method SetUpSample(dbq: DatabaseQueries) returns (d: SampleData)
    requires dbq.Valid()
    requires TestRowsSelfContained(dbq.Snapshot())
    modifies dbq
    ensures dbq.Valid()
    ensures d == GenerateSampleData()
    ensures dbq.Snapshot() == SampleLoaded(old(dbq.Snapshot()))
  {
    ghost var t := dbq.Snapshot();
    TestSetup(dbq);
    SampleLoadsAfterSetup(t);
    var sample := CreateSampleData(dbq);
    assert sample.Ok?;
    d := sample.value;
  }

  /** TestSelectOnAllTables: after testSetup every table can be listed. */
  method SelectOnAllTablesScenario(dbq: DatabaseQueries)
    requires dbq.Valid()
    requires TestRowsSelfContained(dbq.Snapshot())
    modifies dbq
    ensures dbq.Valid()
    ensures dbq.Snapshot() == AfterSetup(old(dbq.Snapshot()))
  {
    TestSetup(dbq);
    var applicationStates := dbq.UnsafeListAllApplicationStates();
    var applications := dbq.UnsafeListAllApplications();
    var clusterAccess := dbq.UnsafeListAllClusterAccess();
    var clusterCredentials := dbq.UnsafeListAllClusterCredentials();
    var clusterUsers := dbq.UnsafeListAllClusterUsers();
    var engineClusters := dbq.UnsafeListAllGitopsEngineClusters();
    var engineInstances := dbq.UnsafeListAllGitopsEngineInstances();
    var managedEnvironments := dbq.UnsafeListAllManagedEnvironments();
    var operations := dbq.UnsafeListAllOperations();
  }

  /** TestCreateApplication: the grantee creates an application on its
      (environment, instance) pair, reads it back, deletes it through the
      checked delete, and then no longer finds it. */
  method CreateApplicationScenario(dbq: DatabaseQueries)
    requires dbq.Valid()
    requires TestRowsSelfContained(dbq.Snapshot())
    modifies dbq
    ensures dbq.Valid()
    ensures dbq.Snapshot() == SampleLoaded(old(dbq.Snapshot()))
  {
    var d := SetUpSample(dbq);
    assert HasTestPrefix(APPLICATION_ID);
    CreateApplicationSteps(dbq, d);
  }

  const APPLICATION_ID := "test-my-application"

  /** The body of TestCreateApplication once the sample is loaded: it needs
      the sample grant and a free application id. */
  method CreateApplicationSteps(dbq: DatabaseQueries, d: SampleData)
    requires dbq.Valid()
    requires Chained(d) && d.clusterAccess in dbq.clusterAccess
    requires APPLICATION_ID !in dbq.applications && APPLICATION_ID !in dbq.applicationStates
    modifies dbq`applications
    ensures dbq.Valid()
    ensures dbq.Snapshot() == old(dbq.Snapshot())
  {
    ghost var before := dbq.applications;
    var app := Application(APPLICATION_ID, "my-application", "{}",
                           d.engineInstance.gitopsEngineInstanceId, d.environment.managedEnvironmentId);
    var status := dbq.CheckedCreateApplication(app, d.clusterAccess.userId);
    assert status == Success;

    var retrieved := dbq.GetApplicationById(app.applicationId);
    assert retrieved.Ok? && retrieved.value.applicationId == app.applicationId;

    var rowsAffected := dbq.CheckedDeleteApplicationById(app.applicationId, d.clusterAccess.userId);
    assert rowsAffected == 1;

    retrieved := dbq.GetApplicationById(app.applicationId);
    assert retrieved == Err(NotFound);
    InsertThenRemove(before, app.applicationId, app);
  }

  /** The user the tests use to show that a denial looks like absence. */
  const ANOTHER_USER := "another-user"

  /** Deleting a fresh grant again leaves the grant table as it was. */
  lemma AddThenRemove(s: set<ClusterAccess>, g: ClusterAccess)
    requires g !in s
    ensures s + {g} - {g} == s
  {
  }

  /** What the tests that start from createSampleData rely on: the sample
      chain was inserted into an intact store and only it refers to its rows. */
  lemma SampleIsolated(t: Tables)
    requires WellFormed(t) && TestRowsSelfContained(t)
    ensures var d := GenerateSampleData();
            && SampleStepsDone(AfterSetup(t), d) == 5
            && OnlyChainRefersToChain(SampleLoaded(t), d)
  {
    SetupKeepsStoreIntact(t);
    SampleLoadsAfterSetup(t);
    FreshChainReferencedOnlyByItself(AfterSetup(t), GenerateSampleData());
  }

  /** TestManagedEnvironment: the sample environment is visible to the test
      user, reads as not found for another user, and reads as not found for
      everyone once its grant and then the environment itself are deleted. */
  method ManagedEnvironmentScenario(dbq: DatabaseQueries)
    requires dbq.Valid()
    requires TestRowsSelfContained(dbq.Snapshot())
    modifies dbq
    ensures dbq.Valid()
    ensures var t := old(dbq.Snapshot());
            dbq.Snapshot() == SampleLoaded(t).(clusterAccess := AfterSetup(t).clusterAccess,
                                               environments := AfterSetup(t).environments)
  {
    ghost var t := dbq.Snapshot();
    var d := SetUpSample(dbq);
    SampleIsolated(t);
    AddThenRemove(AfterSetup(t).clusterAccess, d.clusterAccess);
    InsertThenRemove(AfterSetup(t).environments, d.environment.managedEnvironmentId, d.environment);
    ManagedEnvironmentSteps(dbq, d);
  }

  /** The body of TestManagedEnvironment once the sample is loaded. */
  method ManagedEnvironmentSteps(dbq: DatabaseQueries, d: SampleData)
    requires dbq.Valid()
    requires Chained(d) && d.clusterAccess.userId == TEST_CLUSTER_USER.clusterUserId
    requires d.environment.managedEnvironmentId in dbq.environments
    requires dbq.environments[d.environment.managedEnvironmentId] == d.environment
    requires d.clusterAccess in dbq.clusterAccess
    requires forall g | g in dbq.clusterAccess && g.managedEnvironmentId == d.environment.managedEnvironmentId ::
               g == d.clusterAccess
    requires forall k | k in dbq.applications :: dbq.applications[k].managedEnvironmentId != d.environment.managedEnvironmentId
    modifies dbq`clusterAccess, dbq`environments
    ensures dbq.Valid()
    ensures dbq.Snapshot() == old(dbq.Snapshot()).(clusterAccess := old(dbq.clusterAccess) - {d.clusterAccess},
                                                   environments := old(dbq.environments) - {d.environment.managedEnvironmentId})
  {
    var env := d.environment.managedEnvironmentId;
    var result := dbq.CheckedGetManagedEnvironmentById(env, TEST_CLUSTER_USER.clusterUserId);
    assert result.Ok? && result.value.name == d.environment.name;

    OnlyGranteeSeesEnvironment(dbq.Snapshot(), env, TEST_CLUSTER_USER.clusterUserId, ANOTHER_USER);
    result := dbq.CheckedGetManagedEnvironmentById(env, ANOTHER_USER);
    assert result == Err(NotFound);

    var g := d.clusterAccess;
    var rowsAffected := dbq.DeleteClusterAccessById(g.userId, g.managedEnvironmentId, g.gitopsEngineInstanceId);
    assert rowsAffected == 1;

    rowsAffected := dbq.DeleteManagedEnvironmentById(env);
    assert rowsAffected == 1;

    result := dbq.CheckedGetManagedEnvironmentById(env, TEST_CLUSTER_USER.clusterUserId);
    assert result == Err(NotFound);
  }

  const OPERATION_ID := "test-operation"

  /** TestOperation: an operation owned by the test user is visible to its
      owner, not found for another user, not deleted by another user (0 rows),
      and deleted by its owner (1 row). */
  method OperationScenario(dbq: DatabaseQueries)
    requires dbq.Valid()
    requires TestRowsSelfContained(dbq.Snapshot())
    modifies dbq
    ensures dbq.Valid()
    ensures dbq.Snapshot() == SampleLoaded(old(dbq.Snapshot()))
  {
    var d := SetUpSample(dbq);
    assert HasTestPrefix(OPERATION_ID);
    OperationSteps(dbq, d);
  }

  /** The body of TestOperation once the sample is loaded: it needs the sample
      instance, the test user and a free operation id. */
  method OperationSteps(dbq: DatabaseQueries, d: SampleData)
    requires dbq.Valid()
    requires d.engineInstance.gitopsEngineInstanceId in dbq.engineInstances
    requires TEST_CLUSTER_USER.clusterUserId in dbq.users
    requires OPERATION_ID !in dbq.operations
    modifies dbq`operations
    ensures dbq.Valid()
    ensures dbq.Snapshot() == old(dbq.Snapshot())
  {
    ghost var before := dbq.operations;
    var operation := Operation(OPERATION_ID, d.engineInstance.gitopsEngineInstanceId, "fake resource id",
                               "GitopsEngineInstance", Waiting, TEST_CLUSTER_USER.clusterUserId);
    var status := dbq.CreateOperation(operation, operation.ownerUserId);
    assert status == Success;

    var result := dbq.CheckedGetOperationById(operation.operationId, operation.ownerUserId);
    assert result.Ok? && result.value.operationId == operation.operationId;

    result := dbq.CheckedGetOperationById(operation.operationId, ANOTHER_USER);
    assert result == Err(NotFound);
    var rowsAffected := dbq.CheckedDeleteOperationById(operation.operationId, ANOTHER_USER);
    assert rowsAffected == 0;

    rowsAffected := dbq.CheckedDeleteOperationById(operation.operationId, operation.ownerUserId);
    assert rowsAffected == 1;
    InsertThenRemove(before, operation.operationId, operation);
  }

  /** TestGitopsEngineInstanceAndCluster: the sample cluster is visible to the
      test user through the grant on an instance running on it; after the
      grant, the instance and the cluster are deleted, it reads as not found. */
  method GitopsEngineInstanceAndClusterScenario(dbq: DatabaseQueries)
    requires dbq.Valid()
    requires TestRowsSelfContained(dbq.Snapshot())
    modifies dbq
    ensures dbq.Valid()
    ensures dbq.Snapshot() == WithSampleRows(AfterSetup(old(dbq.Snapshot())), GenerateSampleData(), 2)
  {
    ghost var t := dbq.Snapshot();
    var d := SetUpSample(dbq);
    SampleIsolated(t);
    var a := AfterSetup(t);
    AddThenRemove(a.clusterAccess, d.clusterAccess);
    InsertThenRemove(a.engineInstances, d.engineInstance.gitopsEngineInstanceId, d.engineInstance);
    InsertThenRemove(a.engineClusters, d.engineCluster.gitopsEngineClusterId, d.engineCluster);
    assert d.engineCluster.gitopsEngineClusterId !in dbq.engineInstances;
    GitopsEngineInstanceAndClusterSteps(dbq, d);
  }

  /** The body of TestGitopsEngineInstanceAndCluster once the sample is
      loaded. Its not-found check after the instance delete looks the
      instance table up by the cluster's id, so it needs that id to be no
      instance's key. */
  method GitopsEngineInstanceAndClusterSteps(dbq: DatabaseQueries, d: SampleData)
    requires dbq.Valid()
    requires Chained(d) && d.clusterAccess.userId == TEST_CLUSTER_USER.clusterUserId
    requires d.engineInstance.gitopsEngineInstanceId in dbq.engineInstances
    requires dbq.engineInstances[d.engineInstance.gitopsEngineInstanceId] == d.engineInstance
    requires d.engineCluster.gitopsEngineClusterId in dbq.engineClusters
    requires dbq.engineClusters[d.engineCluster.gitopsEngineClusterId] == d.engineCluster
    requires d.clusterAccess in dbq.clusterAccess
    requires forall g | g in dbq.clusterAccess && g.gitopsEngineInstanceId == d.engineInstance.gitopsEngineInstanceId ::
               g == d.clusterAccess
    requires forall k | k in dbq.applications :: dbq.applications[k].engineInstanceId != d.engineInstance.gitopsEngineInstanceId
    requires forall k | k in dbq.operations :: dbq.operations[k].instanceId != d.engineInstance.gitopsEngineInstanceId
    requires forall k | k in dbq.engineInstances && k != d.engineInstance.gitopsEngineInstanceId ::
               dbq.engineInstances[k].engineClusterId != d.engineCluster.gitopsEngineClusterId
    requires d.engineCluster.gitopsEngineClusterId !in dbq.engineInstances
    modifies dbq`clusterAccess, dbq`engineInstances, dbq`engineClusters
    ensures dbq.Valid()
    ensures dbq.Snapshot() == old(dbq.Snapshot()).(
              clusterAccess := old(dbq.clusterAccess) - {d.clusterAccess},
              engineInstances := old(dbq.engineInstances) - {d.engineInstance.gitopsEngineInstanceId},
              engineClusters := old(dbq.engineClusters) - {d.engineCluster.gitopsEngineClusterId})
  {
    var cluster := d.engineCluster.gitopsEngineClusterId;
    var instance := d.engineInstance.gitopsEngineInstanceId;
    var g := d.clusterAccess;
    assert dbq.engineInstances[g.gitopsEngineInstanceId].engineClusterId == cluster;
    var retrievedCluster := dbq.CheckedGetGitopsEngineClusterById(cluster, TEST_CLUSTER_USER.clusterUserId);
    assert retrievedCluster == Ok(d.engineCluster);

    var rowsAffected := dbq.DeleteClusterAccessById(g.userId, g.managedEnvironmentId, g.gitopsEngineInstanceId);
    assert rowsAffected == 1;

    rowsAffected := dbq.DeleteGitopsEngineInstanceById(instance);
    assert rowsAffected == 1;

    // The test asks for the instance whose id is the cluster's id.
    var retrievedInstance := dbq.CheckedGetGitopsEngineInstanceById(cluster, TEST_CLUSTER_USER.clusterUserId);
    assert retrievedInstance == Err(NotFound);

    rowsAffected := dbq.DeleteGitopsEngineClusterById(cluster);
    assert rowsAffected == 1;

    retrievedCluster := dbq.CheckedGetGitopsEngineClusterById(cluster, TEST_CLUSTER_USER.clusterUserId);
    assert retrievedCluster == Err(NotFound);
  }

  /** TestClusterCredentials: after testSetup the test creates, row by row,
      the same chain generateSampleData describes, reads the credentials back
      unchecked and checked (the grant reaches them through the environment),
      deletes the five rows children first and no longer finds the credentials. */
  method ClusterCredentialsScenario(dbq: DatabaseQueries)
    requires dbq.Valid()
    requires TestRowsSelfContained(dbq.Snapshot())
    modifies dbq
    ensures dbq.Valid()
    ensures dbq.Snapshot() == AfterSetup(old(dbq.Snapshot()))
  {
    ghost var t := dbq.Snapshot();
    TestSetup(dbq);
    SetupKeepsStoreIntact(t);
    SampleLoadsAfterSetup(t);
    var d := GenerateSampleData();
    var a := AfterSetup(t);
    CreateChain(dbq, d);
    FreshChainReferencedOnlyByItself(a, d);
    SampleVisibleToGrantee(a, d);
    var raw, checked := ReadCredentialsBack(dbq, d);
    DeleteChain(dbq, d);
    InsertThenRemove(a.credentials, d.credentials.clusterCredentialsId, d.credentials);
    InsertThenRemove(a.environments, d.environment.managedEnvironmentId, d.environment);
    InsertThenRemove(a.engineClusters, d.engineCluster.gitopsEngineClusterId, d.engineCluster);
    InsertThenRemove(a.engineInstances, d.engineInstance.gitopsEngineInstanceId, d.engineInstance);
    AddThenRemove(a.clusterAccess, d.clusterAccess);
  }

  /** The five creates of TestClusterCredentials, parents first; each must succeed. */
  method CreateChain(dbq: DatabaseQueries, d: SampleData)
    requires dbq.Valid()
    requires Chained(d)
    requires d.clusterAccess.userId in dbq.users
    requires SampleStepsDone(dbq.Snapshot(), d) == 5
    modifies dbq`credentials, dbq`environments, dbq`engineClusters, dbq`engineInstances, dbq`clusterAccess
    ensures dbq.Valid()
    ensures dbq.Snapshot() == WithSampleRows(old(dbq.Snapshot()), d, 5)
  {
    var status := dbq.CreateClusterCredentials(d.credentials);
    assert status == Success;
    status := dbq.CreateManagedEnvironment(d.environment);
    assert status == Success;
    status := dbq.CreateGitopsEngineCluster(d.engineCluster);
    assert status == Success;
    status := dbq.CreateGitopsEngineInstance(d.engineInstance);
    assert status == Success;
    status := dbq.CreateClusterAccess(d.clusterAccess);
    assert status == Success;
  }

  /** The two reads of TestClusterCredentials: unchecked, then checked for the
      grant's user; both return the stored host and kube config. */
  method ReadCredentialsBack(dbq: DatabaseQueries, d: SampleData)
      returns (raw: Result<ClusterCredentials>, checked: Result<ClusterCredentials>)
    requires d.credentials.clusterCredentialsId in dbq.credentials
    requires dbq.credentials[d.credentials.clusterCredentialsId] == d.credentials
    requires CredentialsAuthorized(dbq.Snapshot(), d.clusterAccess.userId, d.credentials.clusterCredentialsId)
    ensures raw.Ok? && checked.Ok?
    ensures raw.value.host == checked.value.host == d.credentials.host
    ensures raw.value.kubeConfig == checked.value.kubeConfig == d.credentials.kubeConfig
    ensures raw.value.kubeConfigContext == checked.value.kubeConfigContext == d.credentials.kubeConfigContext
  {
    var id := d.credentials.clusterCredentialsId;
    raw := dbq.GetClusterCredentialsById(id);
    checked := dbq.CheckedGetClusterCredentialsById(id, d.clusterAccess.userId);
  }

  /** The five deletes of TestClusterCredentials, children first, each
      removing one row, and the final not-found read of the credentials. */
  method DeleteChain(dbq: DatabaseQueries, d: SampleData)
    requires dbq.Valid()
    requires Chained(d)
    requires d.credentials.clusterCredentialsId in dbq.credentials
    requires d.environment.managedEnvironmentId in dbq.environments
    requires d.engineCluster.gitopsEngineClusterId in dbq.engineClusters
    requires d.engineInstance.gitopsEngineInstanceId in dbq.engineInstances
    requires d.clusterAccess in dbq.clusterAccess
    requires OnlyChainRefersToChain(dbq.Snapshot(), d)
    modifies dbq`credentials, dbq`environments, dbq`engineClusters, dbq`engineInstances, dbq`clusterAccess
    ensures dbq.Valid()
    ensures dbq.Snapshot() == old(dbq.Snapshot()).(
              credentials := old(dbq.credentials) - {d.credentials.clusterCredentialsId},
              environments := old(dbq.environments) - {d.environment.managedEnvironmentId},
              engineClusters := old(dbq.engineClusters) - {d.engineCluster.gitopsEngineClusterId},
              engineInstances := old(dbq.engineInstances) - {d.engineInstance.gitopsEngineInstanceId},
              clusterAccess := old(dbq.clusterAccess) - {d.clusterAccess})
  {
    DeleteChainEngineRows(dbq, d);
    DeleteChainAccountRows(dbq, d);
  }

  /** The grant, then the instance, then the cluster: each delete removes one row. */
  method DeleteChainEngineRows(dbq: DatabaseQueries, d: SampleData)
    requires dbq.Valid()
    requires Chained(d)
    requires d.engineCluster.gitopsEngineClusterId in dbq.engineClusters
    requires d.engineInstance.gitopsEngineInstanceId in dbq.engineInstances
    requires d.clusterAccess in dbq.clusterAccess
    requires forall g | g in dbq.clusterAccess && g.gitopsEngineInstanceId == d.engineInstance.gitopsEngineInstanceId ::
               g == d.clusterAccess
    requires forall k | k in dbq.applications :: dbq.applications[k].engineInstanceId != d.engineInstance.gitopsEngineInstanceId
    requires forall k | k in dbq.operations :: dbq.operations[k].instanceId != d.engineInstance.gitopsEngineInstanceId
    requires forall k | k in dbq.engineInstances && k != d.engineInstance.gitopsEngineInstanceId ::
               dbq.engineInstances[k].engineClusterId != d.engineCluster.gitopsEngineClusterId
    modifies dbq`engineClusters, dbq`engineInstances, dbq`clusterAccess
    ensures dbq.Valid()
    ensures dbq.Snapshot() == old(dbq.Snapshot()).(
              engineClusters := old(dbq.engineClusters) - {d.engineCluster.gitopsEngineClusterId},
              engineInstances := old(dbq.engineInstances) - {d.engineInstance.gitopsEngineInstanceId},
              clusterAccess := old(dbq.clusterAccess) - {d.clusterAccess})
  {
    var g := d.clusterAccess;
    var rowsAffected := dbq.DeleteClusterAccessById(g.userId, g.managedEnvironmentId, g.gitopsEngineInstanceId);
    assert rowsAffected == 1;
    rowsAffected := dbq.DeleteGitopsEngineInstanceById(d.engineInstance.gitopsEngineInstanceId);
    assert rowsAffected == 1;
    rowsAffected := dbq.DeleteGitopsEngineClusterById(d.engineCluster.gitopsEngineClusterId);
    assert rowsAffected == 1;
  }

  /** The environment, then the credentials: each delete removes one row, and
      afterwards the credentials read as not found. */
  method DeleteChainAccountRows(dbq: DatabaseQueries, d: SampleData)
    requires dbq.Valid()
    requires d.credentials.clusterCredentialsId in dbq.credentials
    requires d.environment.managedEnvironmentId in dbq.environments
    requires forall g | g in dbq.clusterAccess :: g.managedEnvironmentId != d.environment.managedEnvironmentId
    requires forall k | k in dbq.applications :: dbq.applications[k].managedEnvironmentId != d.environment.managedEnvironmentId
    requires forall k | k in dbq.environments && k != d.environment.managedEnvironmentId ::
               dbq.environments[k].clusterCredentialsId != d.credentials.clusterCredentialsId
    requires forall k | k in dbq.engineClusters :: dbq.engineClusters[k].clusterCredentialsId != d.credentials.clusterCredentialsId
    modifies dbq`credentials, dbq`environments
    ensures dbq.Valid()
    ensures dbq.Snapshot() == old(dbq.Snapshot()).(
              credentials := old(dbq.credentials) - {d.credentials.clusterCredentialsId},
              environments := old(dbq.environments) - {d.environment.managedEnvironmentId})
  {
    var rowsAffected := dbq.DeleteManagedEnvironmentById(d.environment.managedEnvironmentId);
    assert rowsAffected == 1;
    rowsAffected := dbq.DeleteClusterCredentialsById(d.credentials.clusterCredentialsId);
    assert rowsAffected == 1;

    var retrieved := dbq.GetClusterCredentialsById(d.credentials.clusterCredentialsId);
    assert retrieved == Err(NotFound);
  }

  /** The second user of TestClusterUser; its key carries the test prefix. */
  const CLUSTER_USER_2 := ClusterUser("test-my-cluster-user-2", "cluster-mccluster")

  /** An id the test expects no user to have. */
  const MISSING_USER_ID := "does-not-exist"

  /** TestClusterUser: a created user reads back with its name, its delete
      removes one row, and afterwards it reads as not found, as does an id
      that was never created. */
  method ClusterUserScenario(dbq: DatabaseQueries)
    requires dbq.Valid()
    requires TestRowsSelfContained(dbq.Snapshot())
    requires MISSING_USER_ID !in dbq.users
    modifies dbq
    ensures dbq.Valid()
    ensures dbq.Snapshot() == AfterSetup(old(dbq.Snapshot()))
  {
    ghost var t := dbq.Snapshot();
    TestSetup(dbq);
    assert HasTestPrefix(CLUSTER_USER_2.clusterUserId);
    assert CLUSTER_USER_2.clusterUserId != TEST_CLUSTER_USER.clusterUserId;
    assert MISSING_USER_ID[0] != TEST_PREFIX[0];
    ClusterUserSteps(dbq);
  }

  /** The body of TestClusterUser after testSetup: it needs the second user's
      id to be free and the missing id to stay missing. */
  method ClusterUserSteps(dbq: DatabaseQueries)
    requires dbq.Valid()
    requires CLUSTER_USER_2.clusterUserId !in dbq.users
    requires MISSING_USER_ID !in dbq.users
    modifies dbq`users
    ensures dbq.Valid()
    ensures dbq.Snapshot() == old(dbq.Snapshot())
  {
    ghost var before := dbq.users;
    var status := dbq.CreateClusterUser(CLUSTER_USER_2);
    assert status == Success;

    var retrieved := dbq.GetClusterUserById(CLUSTER_USER_2.clusterUserId);
    assert retrieved.Ok? && retrieved.value.userName == CLUSTER_USER_2.userName;

    // No grant or operation can name a user that did not exist before.
    var rowsAffected := dbq.DeleteClusterUserById(CLUSTER_USER_2.clusterUserId);
    assert rowsAffected == 1;

    retrieved := dbq.GetClusterUserById(CLUSTER_USER_2.clusterUserId);
    assert retrieved == Err(NotFound);

    retrieved := dbq.GetClusterUserById(MISSING_USER_ID);
    assert retrieved == Err(NotFound);
    InsertThenRemove(before, CLUSTER_USER_2.clusterUserId, CLUSTER_USER_2);
  }
}
