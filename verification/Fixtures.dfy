/** The test file's fixture procedures: testSetup, which clears every row whose
    key starts with "test-" (children before parents) and re-creates the test
    user, and createSampleData / generateSampleData, which insert one linked
    credentials -> environment -> cluster -> instance -> grant chain. */
module Fixtures {
  import opened Results
  import opened Entities
  import opened Schema
  import opened Queries

  const TEST_PREFIX := "test-"

  /** The user every test acts as; testSetup re-creates it. */
  const TEST_CLUSTER_USER := ClusterUser("test-user", "test-user")

  predicate HasTestPrefix(id: string) {
    TEST_PREFIX <= id
  }

  function TestKeys<V>(m: map<string, V>): set<string> {
    set k | k in m && HasTestPrefix(k)
  }

  /** testSetup selects a grant by its environment id, not by a key of its own. */
  function TestGrants(access: set<ClusterAccess>): set<ClusterAccess> {
    set g | g in access && HasTestPrefix(g.managedEnvironmentId)
  }

  /** The table with its test rows removed and every other row untouched. */
  function WithoutTestKeys<V>(m: map<string, V>): (r: map<string, V>)
    ensures forall k :: k in r <==> k in m && !HasTestPrefix(k)
    ensures forall k | k in r :: r[k] == m[k]
  {
    m - TestKeys(m)
  }

  // ------------------------------------------------------------------ what testSetup relies on
  // A row that references a test row must itself be selected for deletion by
  // testSetup, or the storage engine would reject the parent's delete.

  ghost predicate OperationsSelfContained(ops: map<string, Operation>) {
    forall k | k in ops ::
      (HasTestPrefix(ops[k].instanceId) || HasTestPrefix(ops[k].ownerUserId)) ==> HasTestPrefix(k)
  }

  ghost predicate ApplicationsSelfContained(apps: map<string, Application>) {
    forall k | k in apps ::
      (HasTestPrefix(apps[k].managedEnvironmentId) || HasTestPrefix(apps[k].engineInstanceId)) ==> HasTestPrefix(k)
  }

  ghost predicate GrantsSelfContained(access: set<ClusterAccess>) {
    forall g | g in access ::
      (HasTestPrefix(g.userId) || HasTestPrefix(g.gitopsEngineInstanceId)) ==> HasTestPrefix(g.managedEnvironmentId)
  }

  ghost predicate EngineInstancesSelfContained(instances: map<string, GitopsEngineInstance>) {
    forall k | k in instances :: HasTestPrefix(instances[k].engineClusterId) ==> HasTestPrefix(k)
  }

  ghost predicate EngineClustersSelfContained(clusters: map<string, GitopsEngineCluster>) {
    forall k | k in clusters :: HasTestPrefix(clusters[k].clusterCredentialsId) ==> HasTestPrefix(k)
  }

  ghost predicate EnvironmentsSelfContained(envs: map<string, ManagedEnvironment>) {
    forall k | k in envs :: HasTestPrefix(envs[k].clusterCredentialsId) ==> HasTestPrefix(k)
  }

  ghost predicate TestRowsSelfContained(t: Tables) {
    && OperationsSelfContained(t.operations)
    && ApplicationsSelfContained(t.applications)
    && GrantsSelfContained(t.clusterAccess)
    && EngineInstancesSelfContained(t.engineInstances)
    && EngineClustersSelfContained(t.engineClusters)
    && EnvironmentsSelfContained(t.environments)
  }

  // ------------------------------------------------------------------ what testSetup leaves

  /** The store after testSetup: every test row purged, the test user created again. */
  function AfterSetup(t: Tables): Tables {
    Tables(
      WithoutTestKeys(t.users)[TEST_CLUSTER_USER.clusterUserId := TEST_CLUSTER_USER],
      WithoutTestKeys(t.credentials),
      WithoutTestKeys(t.environments),
      WithoutTestKeys(t.engineClusters),
      WithoutTestKeys(t.engineInstances),
      t.clusterAccess - TestGrants(t.clusterAccess),
      WithoutTestKeys(t.applications),
      WithoutTestKeys(t.applicationStates),
      WithoutTestKeys(t.operations))
  }

  /** No test row is left except the test user itself. */
  ghost predicate OnlyTestClusterUserLeft(t: Tables) {
    && (forall k | k in t.users && HasTestPrefix(k) :: k == TEST_CLUSTER_USER.clusterUserId)
    && TestKeys(t.credentials) == {}
    && TestKeys(t.environments) == {}
    && TestKeys(t.engineClusters) == {}
    && TestKeys(t.engineInstances) == {}
    && TestGrants(t.clusterAccess) == {}
    && TestKeys(t.applications) == {}
    && TestKeys(t.applicationStates) == {}
    && TestKeys(t.operations) == {}
  }

  /** testSetup leaves only the re-created test user among the test rows and
      keeps every other row. */
  lemma SetupLeavesOnlyTestClusterUser(t: Tables)
    ensures OnlyTestClusterUserLeft(AfterSetup(t))
    ensures AfterSetup(t).users[TEST_CLUSTER_USER.clusterUserId] == TEST_CLUSTER_USER
    ensures forall k | k in t.users && !HasTestPrefix(k) :: k in AfterSetup(t).users && AfterSetup(t).users[k] == t.users[k]
    ensures forall g | g in t.clusterAccess && !HasTestPrefix(g.managedEnvironmentId) :: g in AfterSetup(t).clusterAccess
  {
  }

  /** Deleting children before parents is enough: when test rows are referenced
      only by test rows, the store left by testSetup is still referentially intact. */
  lemma SetupKeepsStoreIntact(t: Tables)
    requires WellFormed(t)
    requires TestRowsSelfContained(t)
    ensures WellFormed(AfterSetup(t))
  {
    PurgeKeepsEnvironmentsResolved(t.environments, t.credentials);
    PurgeKeepsEngineClustersResolved(t.engineClusters, t.credentials);
    PurgeKeepsEngineInstancesResolved(t.engineInstances, t.engineClusters);
    PurgeKeepsGrantsResolved(t.clusterAccess, t.users, t.environments, t.engineInstances);
    PurgeKeepsApplicationsResolved(t.applications, t.environments, t.engineInstances);
    PurgeKeepsOperationsResolved(t.operations, t.engineInstances, t.users);
  }

  lemma PurgeKeepsEnvironmentsResolved(envs: map<string, ManagedEnvironment>, creds: map<string, ClusterCredentials>)
    requires EnvironmentsResolve(envs, creds) && EnvironmentsSelfContained(envs)
    ensures EnvironmentsResolve(WithoutTestKeys(envs), WithoutTestKeys(creds))
  {
    var kept := WithoutTestKeys(envs);
    forall k | k in kept ensures kept[k].clusterCredentialsId in WithoutTestKeys(creds) {
      assert !HasTestPrefix(envs[k].clusterCredentialsId);
    }
  }

  lemma PurgeKeepsEngineClustersResolved(clusters: map<string, GitopsEngineCluster>, creds: map<string, ClusterCredentials>)
    requires EngineClustersResolve(clusters, creds) && EngineClustersSelfContained(clusters)
    ensures EngineClustersResolve(WithoutTestKeys(clusters), WithoutTestKeys(creds))
  {
    var kept := WithoutTestKeys(clusters);
    forall k | k in kept ensures kept[k].clusterCredentialsId in WithoutTestKeys(creds) {
      assert !HasTestPrefix(clusters[k].clusterCredentialsId);
    }
  }

  lemma PurgeKeepsEngineInstancesResolved(instances: map<string, GitopsEngineInstance>,
                                          clusters: map<string, GitopsEngineCluster>)
    requires EngineInstancesResolve(instances, clusters) && EngineInstancesSelfContained(instances)
    ensures EngineInstancesResolve(WithoutTestKeys(instances), WithoutTestKeys(clusters))
  {
    var kept := WithoutTestKeys(instances);
    forall k | k in kept ensures kept[k].engineClusterId in WithoutTestKeys(clusters) {
      assert !HasTestPrefix(instances[k].engineClusterId);
    }
  }

  lemma PurgeKeepsGrantsResolved(access: set<ClusterAccess>, users: map<string, ClusterUser>,
                                 envs: map<string, ManagedEnvironment>, instances: map<string, GitopsEngineInstance>)
    requires GrantsResolve(access, users, envs, instances) && GrantsSelfContained(access)
    ensures var u := WithoutTestKeys(users);
            GrantsResolve(access - TestGrants(access), u[TEST_CLUSTER_USER.clusterUserId := TEST_CLUSTER_USER],
                          WithoutTestKeys(envs), WithoutTestKeys(instances))
  {
  }

  lemma PurgeKeepsApplicationsResolved(apps: map<string, Application>, envs: map<string, ManagedEnvironment>,
                                       instances: map<string, GitopsEngineInstance>)
    requires ApplicationsResolve(apps, envs, instances) && ApplicationsSelfContained(apps)
    ensures ApplicationsResolve(WithoutTestKeys(apps), WithoutTestKeys(envs), WithoutTestKeys(instances))
  {
  }

  lemma PurgeKeepsOperationsResolved(ops: map<string, Operation>, instances: map<string, GitopsEngineInstance>,
                                     users: map<string, ClusterUser>)
    requires OperationsResolve(ops, instances, users) && OperationsSelfContained(ops)
    ensures var u := WithoutTestKeys(users);
            OperationsResolve(WithoutTestKeys(ops), WithoutTestKeys(instances),
                              u[TEST_CLUSTER_USER.clusterUserId := TEST_CLUSTER_USER])
  {
  }

  // ------------------------------------------------------------------ testSetup, table by table
  // Each loop lists the table, then deletes every listed row whose key starts
  // with "test-" and asserts that the delete removed exactly one row. A
  // delete's precondition (no row still references it) holds because the
  // tables that reference this one were purged before it.

  /** The table after a purge loop has visited rows[..i]: each visited row
      whose key has the test prefix is removed. */
  ghost function PurgedUpTo<R, V>(m: map<string, V>, rows: seq<R>, key: R -> string, i: nat): map<string, V>
    requires i <= |rows|
  {
    if i == 0 then m
    else if HasTestPrefix(key(rows[i - 1])) then PurgedUpTo(m, rows, key, i - 1) - {key(rows[i - 1])}
    else PurgedUpTo(m, rows, key, i - 1)
  }

  /** A key survives the first i steps exactly when it is not the key of a
      visited row with the test prefix; surviving rows are untouched. */
  lemma {:induction false} PurgedUpToKeeps<R, V>(m: map<string, V>, rows: seq<R>, key: R -> string, i: nat)
    requires i <= |rows|
    ensures forall k :: k in PurgedUpTo(m, rows, key, i) <==>
                          k in m && !(HasTestPrefix(k) && exists j | 0 <= j < i :: key(rows[j]) == k)
    ensures forall k | k in PurgedUpTo(m, rows, key, i) :: PurgedUpTo(m, rows, key, i)[k] == m[k]
  {
    if i > 0 {
      PurgedUpToKeeps(m, rows, key, i - 1);
    }
  }

  /** The row the loop is about to visit is still stored, unchanged, when no
      earlier row had the same key. */
  lemma UnvisitedKeyRemains<R, V>(m: map<string, V>, rows: seq<R>, key: R -> string, i: nat)
    requires i < |rows| && key(rows[i]) in m
    requires forall j | 0 <= j < i :: key(rows[j]) != key(rows[i])
    ensures key(rows[i]) in PurgedUpTo(m, rows, key, i)
    ensures PurgedUpTo(m, rows, key, i)[key(rows[i])] == m[key(rows[i])]
  {
    PurgedUpToKeeps(m, rows, key, i);
  }

  /** A loop that visits a row for every key of the table removes exactly its test keys. */
  lemma PurgedAll<R, V>(m: map<string, V>, rows: seq<R>, key: R -> string)
    requires forall k | k in m :: exists j | 0 <= j < |rows| :: key(rows[j]) == k
    ensures PurgedUpTo(m, rows, key, |rows|) == WithoutTestKeys(m)
  {
    PurgedUpToKeeps(m, rows, key, |rows|);
  }

  /** The grant set after the loop has visited gs[..i]: each visited grant on
      a test environment removed. */
  ghost function GrantsPurgedUpTo(s: set<ClusterAccess>, gs: seq<ClusterAccess>, i: nat): set<ClusterAccess>
    requires i <= |gs|
  {
    if i == 0 then s
    else if HasTestPrefix(gs[i - 1].managedEnvironmentId) then GrantsPurgedUpTo(s, gs, i - 1) - {gs[i - 1]}
    else GrantsPurgedUpTo(s, gs, i - 1)
  }

  lemma {:induction false} GrantsPurgedUpToKeeps(s: set<ClusterAccess>, gs: seq<ClusterAccess>, i: nat)
    requires i <= |gs|
    ensures forall g :: g in GrantsPurgedUpTo(s, gs, i) <==>
                          g in s && !(HasTestPrefix(g.managedEnvironmentId) && g in gs[..i])
  {
    if i > 0 {
      GrantsPurgedUpToKeeps(s, gs, i - 1);
      assert gs[..i] == gs[..i - 1] + [gs[i - 1]];
    }
  }

  lemma GrantsPurgedAll(s: set<ClusterAccess>, gs: seq<ClusterAccess>)
    requires forall g | g in s :: g in gs
    ensures GrantsPurgedUpTo(s, gs, |gs|) == s - TestGrants(s)
  {
    GrantsPurgedUpToKeeps(s, gs, |gs|);
    assert gs[..|gs|] == gs;
  }

  method PurgeTestApplicationStates(dbq: DatabaseQueries)
    requires dbq.Valid()
    modifies dbq`applicationStates
    ensures dbq.Valid()
    ensures dbq.Snapshot() == old(dbq.Snapshot()).(applicationStates := WithoutTestKeys(old(dbq.applicationStates)))
  {
    var rows := dbq.UnsafeListAllApplicationStates();
    ghost var before := dbq.applicationStates;
    for i := 0 to |rows|
      invariant dbq.Valid()
      invariant dbq.applicationStates == PurgedUpTo(before, rows, ApplicationStateKey, i)
    {
      var state := rows[i];
      if HasTestPrefix(state.applicationId) {
        UnvisitedKeyRemains(before, rows, ApplicationStateKey, i);
        var rowsAffected := dbq.DeleteApplicationStateById(state.applicationId);
        assert rowsAffected == 1;
      }
    }
    PurgedAll(before, rows, ApplicationStateKey);
  }

  /** Operations are deleted through the checked delete, on behalf of their own owner. */
  method PurgeTestOperations(dbq: DatabaseQueries)
    requires dbq.Valid()
    modifies dbq`operations
    ensures dbq.Valid()
    ensures dbq.Snapshot() == old(dbq.Snapshot()).(operations := WithoutTestKeys(old(dbq.operations)))
  {
    var rows := dbq.UnsafeListAllOperations();
    ghost var before := dbq.operations;
    for i := 0 to |rows|
      invariant dbq.Valid()
      invariant dbq.operations == PurgedUpTo(before, rows, OperationKey, i)
    {
      var operation := rows[i];
      if HasTestPrefix(operation.operationId) {
        UnvisitedKeyRemains(before, rows, OperationKey, i);
        var rowsAffected := dbq.CheckedDeleteOperationById(operation.operationId, operation.ownerUserId);
        assert rowsAffected == 1;
      }
    }
    PurgedAll(before, rows, OperationKey);
  }

  method PurgeTestApplications(dbq: DatabaseQueries)
    requires dbq.Valid()
    requires forall k | k in dbq.applicationStates :: !HasTestPrefix(k)
    modifies dbq`applications
    ensures dbq.Valid()
    ensures dbq.Snapshot() == old(dbq.Snapshot()).(applications := WithoutTestKeys(old(dbq.applications)))
  {
    var rows := dbq.UnsafeListAllApplications();
    ghost var before := dbq.applications;
    for i := 0 to |rows|
      invariant dbq.Valid()
      invariant dbq.applications == PurgedUpTo(before, rows, ApplicationKey, i)
    {
      var application := rows[i];
      if HasTestPrefix(application.applicationId) {
        UnvisitedKeyRemains(before, rows, ApplicationKey, i);
        var rowsAffected := dbq.DeleteApplicationById(application.applicationId);
        assert rowsAffected == 1;
      }
    }
    PurgedAll(before, rows, ApplicationKey);
  }

  /** Grants are selected by their environment id and deleted by the composite key. */
  method PurgeTestClusterAccess(dbq: DatabaseQueries)
    requires dbq.Valid()
    modifies dbq`clusterAccess
    ensures dbq.Valid()
    ensures dbq.Snapshot() == old(dbq.Snapshot()).(clusterAccess := old(dbq.clusterAccess) - TestGrants(old(dbq.clusterAccess)))
  {
    var rows := dbq.UnsafeListAllClusterAccess();
    ghost var before := dbq.clusterAccess;
    for i := 0 to |rows|
      invariant dbq.Valid()
      invariant dbq.clusterAccess == GrantsPurgedUpTo(before, rows, i)
    {
      var grant := rows[i];
      if HasTestPrefix(grant.managedEnvironmentId) {
        GrantsPurgedUpToKeeps(before, rows, i);
        assert grant !in rows[..i];
        var rowsAffected := dbq.DeleteClusterAccessById(grant.userId, grant.managedEnvironmentId,
                                                        grant.gitopsEngineInstanceId);
        assert rowsAffected == 1;
      }
    }
    GrantsPurgedAll(before, rows);
  }

  method PurgeTestGitopsEngineInstances(dbq: DatabaseQueries)
    requires dbq.Valid()
    requires forall g | g in dbq.clusterAccess :: !HasTestPrefix(g.gitopsEngineInstanceId)
    requires forall k | k in dbq.applications :: !HasTestPrefix(dbq.applications[k].engineInstanceId)
    requires forall k | k in dbq.operations :: !HasTestPrefix(dbq.operations[k].instanceId)
    modifies dbq`engineInstances
    ensures dbq.Valid()
    ensures dbq.Snapshot() == old(dbq.Snapshot()).(engineInstances := WithoutTestKeys(old(dbq.engineInstances)))
  {
    var rows := dbq.UnsafeListAllGitopsEngineInstances();
    ghost var before := dbq.engineInstances;
    for i := 0 to |rows|
      invariant dbq.Valid()
      invariant dbq.engineInstances == PurgedUpTo(before, rows, GitopsEngineInstanceKey, i)
    {
      var instance := rows[i];
      if HasTestPrefix(instance.gitopsEngineInstanceId) {
        UnvisitedKeyRemains(before, rows, GitopsEngineInstanceKey, i);
        var rowsAffected := dbq.DeleteGitopsEngineInstanceById(instance.gitopsEngineInstanceId);
        assert rowsAffected == 1;
      }
    }
    PurgedAll(before, rows, GitopsEngineInstanceKey);
  }

  method PurgeTestGitopsEngineClusters(dbq: DatabaseQueries)
    requires dbq.Valid()
    requires forall k | k in dbq.engineInstances :: !HasTestPrefix(dbq.engineInstances[k].engineClusterId)
    modifies dbq`engineClusters
    ensures dbq.Valid()
    ensures dbq.Snapshot() == old(dbq.Snapshot()).(engineClusters := WithoutTestKeys(old(dbq.engineClusters)))
  {
    var rows := dbq.UnsafeListAllGitopsEngineClusters();
    ghost var before := dbq.engineClusters;
    for i := 0 to |rows|
      invariant dbq.Valid()
      invariant dbq.engineClusters == PurgedUpTo(before, rows, GitopsEngineClusterKey, i)
    {
      var cluster := rows[i];
      if HasTestPrefix(cluster.gitopsEngineClusterId) {
        UnvisitedKeyRemains(before, rows, GitopsEngineClusterKey, i);
        var rowsAffected := dbq.DeleteGitopsEngineClusterById(cluster.gitopsEngineClusterId);
        assert rowsAffected == 1;
      }
    }
    PurgedAll(before, rows, GitopsEngineClusterKey);
  }

  method PurgeTestManagedEnvironments(dbq: DatabaseQueries)
    requires dbq.Valid()
    requires forall g | g in dbq.clusterAccess :: !HasTestPrefix(g.managedEnvironmentId)
    requires forall k | k in dbq.applications :: !HasTestPrefix(dbq.applications[k].managedEnvironmentId)
    modifies dbq`environments
    ensures dbq.Valid()
    ensures dbq.Snapshot() == old(dbq.Snapshot()).(environments := WithoutTestKeys(old(dbq.environments)))
  {
    var rows := dbq.UnsafeListAllManagedEnvironments();
    ghost var before := dbq.environments;
    for i := 0 to |rows|
      invariant dbq.Valid()
      invariant dbq.environments == PurgedUpTo(before, rows, ManagedEnvironmentKey, i)
    {
      var environment := rows[i];
      if HasTestPrefix(environment.managedEnvironmentId) {
        UnvisitedKeyRemains(before, rows, ManagedEnvironmentKey, i);
        var rowsAffected := dbq.DeleteManagedEnvironmentById(environment.managedEnvironmentId);
        assert rowsAffected == 1;
      }
    }
    PurgedAll(before, rows, ManagedEnvironmentKey);
  }

  method PurgeTestClusterCredentials(dbq: DatabaseQueries)
    requires dbq.Valid()
    requires forall k | k in dbq.environments :: !HasTestPrefix(dbq.environments[k].clusterCredentialsId)
    requires forall k | k in dbq.engineClusters :: !HasTestPrefix(dbq.engineClusters[k].clusterCredentialsId)
    modifies dbq`credentials
    ensures dbq.Valid()
    ensures dbq.Snapshot() == old(dbq.Snapshot()).(credentials := WithoutTestKeys(old(dbq.credentials)))
  {
    var rows := dbq.UnsafeListAllClusterCredentials();
    ghost var before := dbq.credentials;
    for i := 0 to |rows|
      invariant dbq.Valid()
      invariant dbq.credentials == PurgedUpTo(before, rows, ClusterCredentialsKey, i)
    {
      var creds := rows[i];
      if HasTestPrefix(creds.clusterCredentialsId) {
        UnvisitedKeyRemains(before, rows, ClusterCredentialsKey, i);
        var rowsAffected := dbq.DeleteClusterCredentialsById(creds.clusterCredentialsId);
        assert rowsAffected == 1;
      }
    }
    PurgedAll(before, rows, ClusterCredentialsKey);
  }

  method PurgeTestClusterUsers(dbq: DatabaseQueries)
    requires dbq.Valid()
    requires forall g | g in dbq.clusterAccess :: !HasTestPrefix(g.userId)
    requires forall k | k in dbq.operations :: !HasTestPrefix(dbq.operations[k].ownerUserId)
    modifies dbq`users
    ensures dbq.Valid()
    ensures dbq.Snapshot() == old(dbq.Snapshot()).(users := WithoutTestKeys(old(dbq.users)))
  {
    var rows := dbq.UnsafeListAllClusterUsers();
    ghost var before := dbq.users;
    for i := 0 to |rows|
      invariant dbq.Valid()
      invariant dbq.users == PurgedUpTo(before, rows, ClusterUserKey, i)
    {
      var user := rows[i];
      if HasTestPrefix(user.clusterUserId) {
        UnvisitedKeyRemains(before, rows, ClusterUserKey, i);
        var rowsAffected := dbq.DeleteClusterUserById(user.clusterUserId);
        assert rowsAffected == 1;
      }
    }
    PurgedAll(before, rows, ClusterUserKey);
  }
  // ------------------------------------------------------------------ testSetup

  /** Once the test rows are purged, no surviving grant, application or
      operation references a test row. */
  lemma ReferencingSurvivorsAvoidTestRows(t: Tables)
    requires TestRowsSelfContained(t)
    ensures forall g | g in t.clusterAccess - TestGrants(t.clusterAccess) ::
              !HasTestPrefix(g.userId) && !HasTestPrefix(g.managedEnvironmentId) && !HasTestPrefix(g.gitopsEngineInstanceId)
    ensures var apps := WithoutTestKeys(t.applications);
            forall k | k in apps :: !HasTestPrefix(apps[k].engineInstanceId) && !HasTestPrefix(apps[k].managedEnvironmentId)
    ensures var ops := WithoutTestKeys(t.operations);
            forall k | k in ops :: !HasTestPrefix(ops[k].instanceId) && !HasTestPrefix(ops[k].ownerUserId)
  {
  }

  /** Once the test rows are purged, no surviving instance, cluster or
      environment references a test row. */
  lemma ReferencedSurvivorsAvoidTestRows(instances: map<string, GitopsEngineInstance>,
                                         clusters: map<string, GitopsEngineCluster>,
                                         envs: map<string, ManagedEnvironment>)
    requires EngineInstancesSelfContained(instances)
    requires EngineClustersSelfContained(clusters)
    requires EnvironmentsSelfContained(envs)
    ensures var kept := WithoutTestKeys(instances);
            forall k | k in kept :: !HasTestPrefix(kept[k].engineClusterId)
    ensures var kept := WithoutTestKeys(clusters);
            forall k | k in kept :: !HasTestPrefix(kept[k].clusterCredentialsId)
    ensures var kept := WithoutTestKeys(envs);
            forall k | k in kept :: !HasTestPrefix(kept[k].clusterCredentialsId)
  {
  }

  /** The first half of testSetup: the rows that reference others. */
  method PurgeTestReferencingRows(dbq: DatabaseQueries)
    requires dbq.Valid()
    modifies dbq`applicationStates, dbq`operations, dbq`applications, dbq`clusterAccess
    ensures dbq.Valid()
    ensures dbq.Snapshot() == old(dbq.Snapshot()).(
              applicationStates := WithoutTestKeys(old(dbq.applicationStates)),
              operations := WithoutTestKeys(old(dbq.operations)),
              applications := WithoutTestKeys(old(dbq.applications)),
              clusterAccess := old(dbq.clusterAccess) - TestGrants(old(dbq.clusterAccess)))
  {
    PurgeTestApplicationStates(dbq);
    PurgeTestOperations(dbq);
    PurgeTestApplications(dbq);
    PurgeTestClusterAccess(dbq);
  }

  /** The middle of testSetup: engine instances, then engine clusters. */
  method PurgeTestEngineRows(dbq: DatabaseQueries)
    requires dbq.Valid()
    requires forall g | g in dbq.clusterAccess :: !HasTestPrefix(g.gitopsEngineInstanceId)
    requires forall k | k in dbq.applications :: !HasTestPrefix(dbq.applications[k].engineInstanceId)
    requires forall k | k in dbq.operations :: !HasTestPrefix(dbq.operations[k].instanceId)
    requires EngineInstancesSelfContained(dbq.engineInstances)
    modifies dbq`engineInstances, dbq`engineClusters
    ensures dbq.Valid()
    ensures dbq.Snapshot() == old(dbq.Snapshot()).(
              engineInstances := WithoutTestKeys(old(dbq.engineInstances)),
              engineClusters := WithoutTestKeys(old(dbq.engineClusters)))
  {
    PurgeTestGitopsEngineInstances(dbq);
    PurgeTestGitopsEngineClusters(dbq);
  }

  /** The end of testSetup: environments, credentials, then users. */
  method PurgeTestAccountRows(dbq: DatabaseQueries)
    requires dbq.Valid()
    requires forall g | g in dbq.clusterAccess :: !HasTestPrefix(g.userId) && !HasTestPrefix(g.managedEnvironmentId)
    requires forall k | k in dbq.applications :: !HasTestPrefix(dbq.applications[k].managedEnvironmentId)
    requires forall k | k in dbq.operations :: !HasTestPrefix(dbq.operations[k].ownerUserId)
    requires forall k | k in dbq.engineClusters :: !HasTestPrefix(dbq.engineClusters[k].clusterCredentialsId)
    requires EnvironmentsSelfContained(dbq.environments)
    modifies dbq`environments, dbq`credentials, dbq`users
    ensures dbq.Valid()
    ensures dbq.Snapshot() == old(dbq.Snapshot()).(
              environments := WithoutTestKeys(old(dbq.environments)),
              credentials := WithoutTestKeys(old(dbq.credentials)),
              users := WithoutTestKeys(old(dbq.users)))
  {
    PurgeTestManagedEnvironments(dbq);
    PurgeTestClusterCredentials(dbq);
    PurgeTestClusterUsers(dbq);
  }

  /** testSetup: purge the test rows, children before parents, asserting that
      every delete removes one row, then create the test user again. */
  method TestSetup(dbq: DatabaseQueries)
    requires dbq.Valid()
    requires TestRowsSelfContained(dbq.Snapshot())
    modifies dbq
    ensures dbq.Valid()
    ensures dbq.Snapshot() == AfterSetup(old(dbq.Snapshot()))
  {
    ReferencingSurvivorsAvoidTestRows(dbq.Snapshot());
    ReferencedSurvivorsAvoidTestRows(dbq.engineInstances, dbq.engineClusters, dbq.environments);
    PurgeTestReferencingRows(dbq);
    PurgeTestEngineRows(dbq);
    PurgeTestAccountRows(dbq);
    var status := dbq.CreateClusterUser(TEST_CLUSTER_USER);
    assert status.Success?;
  }
}
