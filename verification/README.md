# Database-query contract of the GitOps service, as an in-memory store

This project models the database layer that `backend-shared/config/db/types_test.go`
exercises: nine tables and the query interface over them, with an
ownership-checked access layer on top.

- The tables are ClusterUser, ClusterCredentials, ManagedEnvironment,
  GitopsEngineCluster, GitopsEngineInstance, ClusterAccess, Application,
  ApplicationState and Operation. Each is a finite map from its primary key
  to the row. ClusterAccess is a set of grants, because a grant is its own
  composite key (user, environment, instance).
- The store is the class `Queries.DatabaseQueries`. Its nine fields hold the tables.
  - `Snapshot()` gives the whole store as a `Schema.Tables` value.
  - `Valid()` is the class invariant: every row sits under its own key, and
    every foreign key names an existing row.
- Raw operations:
  - `Create*` inserts a row, or reports a constraint violation on a taken key.
  - `Get*ById` returns the row, or `NotFound`.
  - `Delete*ById` returns the number of rows removed (0 or 1).
  - `UnsafeListAll*` lists a table once, in an order the model leaves open.
- Checked operations take the id of the requesting user. They consult the
  ownership graph in `Ownership`:
  - an environment is visible through a grant that names it;
  - an engine instance is visible through a grant that names it;
  - an engine cluster is visible through a grant on an instance that runs on it;
  - credentials are visible through a visible environment or cluster that uses them;
  - an application is visible through a grant that names exactly its
    (environment, instance) pair;
  - an operation is visible to its owner only.
- A denial looks exactly like absence. A get returns `NotFound`, a delete
  reports 0 rows, and the store is unchanged.
- The test fixtures are modelled imperatively, as the test file writes them:
  - `Fixtures.TestSetup` lists each table and deletes every row whose key
    starts with `test-`. It works children first and asserts that each delete
    removes one row. Then it creates the test user again.
  - `Samples.CreateSampleData` inserts the chain credentials, environment,
    cluster, instance, grant. It inserts parents first and stops at the first
    error.
  - Each test function is replayed in `Scenarios`. Every assertion the test
    makes is an `assert` there. It is proved for every starting store in which
    rows with the `test-` prefix are referenced only by other such rows.

## Model

| member | source | states |
|---|---|---|
| Queries.DatabaseQueries.CreateClusterUser | backend-shared/config/db/types_test.go:430-435 | A new key is inserted with the given row. A taken key gives a constraint violation and no change. Nothing outside the user table changes, and the store stays intact. |
| Queries.DatabaseQueries.GetClusterUserById | backend-shared/config/db/types_test.go:437-457 | Succeeds exactly when the id is stored, and then returns the stored row. Otherwise it returns NotFound. |
| Queries.DatabaseQueries.DeleteClusterUserById | backend-shared/config/db/types_test.go:442-444 | Reports 1 when the id was stored and 0 otherwise. Afterwards the id is absent. Needs no grant or operation to name the user. |
| Queries.DatabaseQueries.UnsafeListAllClusterUsers | backend-shared/config/db/types_test.go:130-133 | Lists each stored user exactly once, each row as stored. |
| Queries.DatabaseQueries.CreateClusterCredentials | backend-shared/config/db/types_test.go:472-482 | Inserts under a free key, otherwise a constraint violation and no change. Only the credentials table changes. |
| Queries.DatabaseQueries.GetClusterCredentialsById | backend-shared/config/db/types_test.go:533-545 | Succeeds exactly when the id is stored, returning that row (host, kube config and context included), else NotFound. |
| Queries.DatabaseQueries.CheckedGetClusterCredentialsById | backend-shared/config/db/types_test.go:545-556 | Succeeds exactly when the row exists and the user reaches it through a visible environment or cluster. Otherwise NotFound. |
| Queries.DatabaseQueries.DeleteClusterCredentialsById | backend-shared/config/db/types_test.go:574-577 | Reports 1 or 0 rows as the id was present. Afterwards the id is absent. Needs no environment or cluster to use the credentials. |
| Queries.DatabaseQueries.UnsafeListAllClusterCredentials | backend-shared/config/db/types_test.go:117-119 | Lists each stored credentials row exactly once. |
| Queries.DatabaseQueries.CreateManagedEnvironment | backend-shared/config/db/types_test.go:491-499 | Inserts under a free key, otherwise a constraint violation and no change. Needs the credentials to exist. |
| Queries.DatabaseQueries.CheckedGetManagedEnvironmentById | backend-shared/config/db/types_test.go:344-355 | Succeeds exactly when the environment exists and one of the user's grants names it. Otherwise NotFound, which is what "another-user" sees. |
| Queries.DatabaseQueries.DeleteManagedEnvironmentById | backend-shared/config/db/types_test.go:361-363 | Reports 1 or 0 rows as the id was present. Afterwards the id is absent. Needs no grant or application to name it. |
| Queries.DatabaseQueries.UnsafeListAllManagedEnvironments | backend-shared/config/db/types_test.go:106-108 | Lists each stored environment exactly once. |
| Queries.DatabaseQueries.CreateGitopsEngineCluster | backend-shared/config/db/types_test.go:501-508 | Inserts under a free key, otherwise a constraint violation and no change. Needs the credentials to exist. |
| Queries.DatabaseQueries.CheckedGetGitopsEngineClusterById | backend-shared/config/db/types_test.go:295-301 | Succeeds exactly when the cluster exists and one of the user's grants names an instance running on it. Otherwise NotFound. |
| Queries.DatabaseQueries.DeleteGitopsEngineClusterById | backend-shared/config/db/types_test.go:318-320 | Reports 1 or 0 rows as the id was present. Afterwards the id is absent. Needs no instance to run on it. |
| Queries.DatabaseQueries.UnsafeListAllGitopsEngineClusters | backend-shared/config/db/types_test.go:93-95 | Lists each stored cluster exactly once. |
| Queries.DatabaseQueries.CreateGitopsEngineInstance | backend-shared/config/db/types_test.go:510-519 | Inserts under a free key, otherwise a constraint violation and no change. Needs the cluster to exist. |
| Queries.DatabaseQueries.CheckedGetGitopsEngineInstanceById | backend-shared/config/db/types_test.go:311-316 | Succeeds exactly when the instance exists and one of the user's grants names it. Otherwise NotFound. |
| Queries.DatabaseQueries.DeleteGitopsEngineInstanceById | backend-shared/config/db/types_test.go:307-309 | Reports 1 or 0 rows as the id was present. Afterwards the id is absent. Needs no grant, application or operation to name it. |
| Queries.DatabaseQueries.UnsafeListAllGitopsEngineInstances | backend-shared/config/db/types_test.go:76-78 | Lists each stored instance exactly once. |
| Queries.DatabaseQueries.CreateClusterAccess | backend-shared/config/db/types_test.go:521-530 | Adds a new grant, otherwise a constraint violation and no change. Needs its user, environment and instance to exist. |
| Queries.DatabaseQueries.DeleteClusterAccessById | backend-shared/config/db/types_test.go:303-305 | Deletes by the whole (user, environment, instance) triple. Reports 1 exactly when that grant was present. |
| Queries.DatabaseQueries.UnsafeListAllClusterAccess | backend-shared/config/db/types_test.go:61-63 | Lists each grant exactly once. |
| Queries.DatabaseQueries.CheckedCreateApplication | backend-shared/config/db/types_test.go:219-230 | Without a grant naming the application's (environment, instance) pair: NotFound and no change. With one: inserts under a free key, otherwise a constraint violation. |
| Queries.DatabaseQueries.GetApplicationById | backend-shared/config/db/types_test.go:232-255 | Succeeds exactly when the id is stored, returning that row, else NotFound. |
| Queries.DatabaseQueries.DeleteApplicationById | backend-shared/config/db/types_test.go:54-57 | Reports 1 or 0 rows as the id was present. Afterwards the id is absent. Needs no state row for the application. |
| Queries.DatabaseQueries.CheckedDeleteApplicationById | backend-shared/config/db/types_test.go:242-248 | Deletes and reports 1 exactly when the application exists and the user holds the grant for its pair. Otherwise 0 rows and no change, whatever references the application. Only an allowed delete needs the application to have no state row. |
| Queries.DatabaseQueries.UnsafeListAllApplications | backend-shared/config/db/types_test.go:50-52 | Lists each stored application exactly once. |
| Queries.DatabaseQueries.DeleteApplicationStateById | backend-shared/config/db/types_test.go:29-34 | Reports 1 or 0 rows as the id was present. Afterwards the id is absent. |
| Queries.DatabaseQueries.UnsafeListAllApplicationStates | backend-shared/config/db/types_test.go:25-27 | Lists each stored application state exactly once. |
| Queries.DatabaseQueries.CreateOperation | backend-shared/config/db/types_test.go:387-397 | Inserts the operation with the given owner under a free key, otherwise a constraint violation. Needs the instance and the owner to exist. |
| Queries.DatabaseQueries.CheckedGetOperationById | backend-shared/config/db/types_test.go:399-409 | Succeeds exactly when the operation exists and the user is its owner. Otherwise NotFound. |
| Queries.DatabaseQueries.CheckedDeleteOperationById | backend-shared/config/db/types_test.go:410-415 | Deletes and reports 1 exactly when the operation exists and the user owns it. Otherwise 0 rows and no change. |
| Queries.DatabaseQueries.UnsafeListAllOperations | backend-shared/config/db/types_test.go:38-40 | Lists each stored operation exactly once. |
| Schema.Enumerate | backend-shared/config/db/types_test.go:153-201 | Lists every element of a table exactly once, in an unspecified order. The length equals the table's size. |
| Ownership.GrantReachesEngineCluster | backend-shared/config/db/types_test.go:295-301 | In an intact store, a grant lets its user see the cluster its instance runs on. |
| Ownership.GrantReachesCredentials | backend-shared/config/db/types_test.go:547-556 | In an intact store, a grant lets its user see the credentials of its environment and of its instance's cluster. |
| Ownership.CredentialsNeedGrant | backend-shared/config/db/types_test.go:547-556 | Conversely, visible credentials are reached by one of the user's own grants. |
| Ownership.OnlyGranteeSeesEnvironment | backend-shared/config/db/types_test.go:351-355 | When every grant naming an environment belongs to one user, no other user sees it. |
| Ownership.AuthorizedRowsExist | backend-shared/config/db/types_test.go:365-369 | In an intact store, authorization is only ever given for existing rows, so a deleted row is not found even for its grantee. |
| Fixtures.WithoutTestKeys | backend-shared/config/db/types_test.go:16-17 | A key survives exactly when it lacks the `test-` prefix, and surviving rows are unchanged. |
| Fixtures.SetupLeavesOnlyTestClusterUser | backend-shared/config/db/types_test.go:130-144 | After testSetup the only test-prefixed row is the recreated test user. Every row without the prefix is kept. |
| Fixtures.SetupKeepsStoreIntact | backend-shared/config/db/types_test.go:24-141 | Deleting children before parents leaves an intact store. This holds when test rows are referenced only by test rows. |
| Fixtures.PurgedUpToKeeps | backend-shared/config/db/types_test.go:28-35 | After visiting the first i listed rows, a key remains exactly when no visited row with the test prefix had it. Remaining rows are unchanged. |
| Fixtures.UnvisitedKeyRemains | backend-shared/config/db/types_test.go:29-33 | The row about to be visited is still stored, unchanged, so its delete removes one row. |
| Fixtures.PurgedAll | backend-shared/config/db/types_test.go:25-36 | A loop over a listing of the whole table removes exactly its test keys. |
| Fixtures.GrantsPurgedUpToKeeps | backend-shared/config/db/types_test.go:64-74 | After i listed grants, a grant remains exactly when it was not visited or its environment lacks the test prefix. |
| Fixtures.GrantsPurgedAll | backend-shared/config/db/types_test.go:61-74 | A loop over all grants removes exactly the grants on test environments. |
| Fixtures.PurgeTestApplicationStates | backend-shared/config/db/types_test.go:25-36 | Removes exactly the test-keyed application states, each delete removing one row. The rest of the store is untouched. |
| Fixtures.PurgeTestOperations | backend-shared/config/db/types_test.go:38-48 | Removes exactly the test-keyed operations through the owner's checked delete, each removing one row. |
| Fixtures.PurgeTestApplications | backend-shared/config/db/types_test.go:50-59 | Removes exactly the test-keyed applications, each removing one row, once their states are gone. |
| Fixtures.PurgeTestClusterAccess | backend-shared/config/db/types_test.go:61-74 | Removes exactly the grants whose environment has the test prefix, each removing one row. |
| Fixtures.PurgeTestGitopsEngineInstances | backend-shared/config/db/types_test.go:76-91 | Removes exactly the test-keyed instances, each removing one row, once nothing test-free names them. |
| Fixtures.PurgeTestGitopsEngineClusters | backend-shared/config/db/types_test.go:93-104 | Removes exactly the test-keyed clusters, each removing one row. |
| Fixtures.PurgeTestManagedEnvironments | backend-shared/config/db/types_test.go:106-115 | Removes exactly the test-keyed environments, each removing one row. |
| Fixtures.PurgeTestClusterCredentials | backend-shared/config/db/types_test.go:117-128 | Removes exactly the test-keyed credentials, each removing one row. |
| Fixtures.PurgeTestClusterUsers | backend-shared/config/db/types_test.go:130-141 | Removes exactly the test-keyed users, each removing one row. |
| Fixtures.PurgeTestReferencingRows | backend-shared/config/db/types_test.go:25-74 | The first four purges, in order. Application states, operations, applications and test grants are removed, and nothing else changes. |
| Fixtures.PurgeTestEngineRows | backend-shared/config/db/types_test.go:76-104 | Test instances, then test clusters, are removed, and nothing else changes. |
| Fixtures.PurgeTestAccountRows | backend-shared/config/db/types_test.go:106-141 | Test environments, credentials and users are removed, and nothing else changes. |
| Fixtures.TestSetup | backend-shared/config/db/types_test.go:12-146 | Leaves exactly the store with every test row purged and the test user recreated, and keeps it intact. |
| Samples.GenerateSampleData | backend-shared/config/db/types_test.go:626-661 | Each foreign key of the chain names the row before it, every key carries the test prefix, and the grant is the test user's. |
| Samples.CreateSampleData | backend-shared/config/db/types_test.go:595-624 | Performs the creates up to the first taken key. The store gains exactly those rows. It succeeds with the generated rows exactly when all five keys were free; otherwise it reports a constraint violation. |
| Samples.SampleLoadsAfterSetup | backend-shared/config/db/types_test.go:595-624 | Right after testSetup all five creates succeed, and the loaded store is intact. |
| Samples.SampleRowsKeepStoreIntact | backend-shared/config/db/types_test.go:602-620 | Inserting a whole chain into an intact store that holds its grant's user keeps the store intact. |
| Samples.SampleVisibleToGrantee | backend-shared/config/db/types_test.go:654-658 | The chain's grant lets its user see the chain's environment, instance, cluster and credentials. |
| Samples.FreshChainReferencedOnlyByItself | backend-shared/config/db/types_test.go:558-577 | A chain inserted with all keys free is referenced only by its own rows, so it can be deleted children first. |
| Scenarios.SetUpSample | backend-shared/config/db/types_test.go:280-293 | testSetup followed by createSampleData always succeeds and loads exactly the sample chain. |
| Scenarios.SelectOnAllTablesScenario | backend-shared/config/db/types_test.go:153-201 | After testSetup every table can be listed. |
| Scenarios.CreateApplicationScenario | backend-shared/config/db/types_test.go:203-256 | TestCreateApplication passes on every qualifying store. It leaves the store as createSampleData left it. |
| Scenarios.CreateApplicationSteps | backend-shared/config/db/types_test.go:219-255 | Checked create succeeds, get finds it, checked delete reports 1, get reports NotFound. The store is unchanged at the end. |
| Scenarios.GitopsEngineInstanceAndClusterScenario | backend-shared/config/db/types_test.go:278-326 | TestGitopsEngineInstanceAndCluster passes. Only the sample credentials and environment remain. |
| Scenarios.GitopsEngineInstanceAndClusterSteps | backend-shared/config/db/types_test.go:295-325 | The cluster is visible, and three deletes report 1 each. Both later lookups report NotFound, and exactly the grant, the instance and the cluster are gone. |
| Scenarios.ManagedEnvironmentScenario | backend-shared/config/db/types_test.go:328-370 | TestManagedEnvironment passes. The sample grant and environment are gone again. |
| Scenarios.ManagedEnvironmentSteps | backend-shared/config/db/types_test.go:344-369 | The grantee reads the environment's name, and "another-user" gets NotFound. Both deletes report 1, and a final read gets NotFound. |
| Scenarios.OperationScenario | backend-shared/config/db/types_test.go:372-416 | TestOperation passes. It leaves the store as createSampleData left it. |
| Scenarios.OperationSteps | backend-shared/config/db/types_test.go:387-415 | The owner sees the operation, another user gets NotFound and deletes 0 rows, and the owner deletes 1. The store is unchanged at the end. |
| Scenarios.ClusterCredentialsScenario | backend-shared/config/db/types_test.go:460-588 | TestClusterCredentials passes, and the store ends exactly as testSetup left it. |
| Scenarios.CreateChain | backend-shared/config/db/types_test.go:481-531 | All five creates succeed, and the store gains exactly the chain. |
| Scenarios.ReadCredentialsBack | backend-shared/config/db/types_test.go:533-556 | The raw read and the grantee's checked read both succeed, and both return the host, kube config and kube config context that were stored. |
| Scenarios.DeleteChain | backend-shared/config/db/types_test.go:558-586 | The five children-first deletes each report 1, and exactly the chain's rows are gone. |
| Scenarios.DeleteChainEngineRows | backend-shared/config/db/types_test.go:558-568 | Grant, instance and cluster deletes report 1 each. |
| Scenarios.DeleteChainAccountRows | backend-shared/config/db/types_test.go:570-586 | Environment and credentials deletes report 1 each, then the credentials are not found. |
| Scenarios.ClusterUserScenario | backend-shared/config/db/types_test.go:418-458 | TestClusterUser passes, and the store ends exactly as testSetup left it. |
| Scenarios.ClusterUserSteps | backend-shared/config/db/types_test.go:428-457 | Create, then get returns the name, and delete reports 1. Afterwards the user and "does-not-exist" are both not found. |

## Left out

- Connection handling, the SQL text and the Postgres engine are not modelled.
  The tables are maps, and a connection error cannot happen.
- Error messages are not modelled. Only the error kind is: NotFound or constraint violation.
- Deletes never report an error in the model. The tests only assert that a
  delete's error is nil.
- A foreign-key rejection by the storage engine is not modelled as behaviour.
  Each create requires the rows it references, and each delete requires that
  nothing references the row. These are preconditions.
- Fixtures.TestSetup: requires that rows with the `test-` prefix are referenced
  only by rows it also deletes. Without that, the real test would fail on a
  foreign-key error, which the model leaves out.
- Queries.DatabaseQueries.CreateOperation: stores the owner passed as its
  second argument. The implementation is not part of this model, and the test
  passes the operation's own owner.
- Queries.DatabaseQueries.UnsafeListAllClusterUsers (and the other listings):
  the order of the rows is left open. The model never depends on it.
- The ApplicationState row keeps only its key and a status string. The other
  columns are not read by the tests.
- TestDeploymentToApplicationMapping (lines 258-276) only prints a result, and
  the mapping table is not part of this model.
- Samples.CreateSampleData: the error branch after the last create is not
  modelled as a return. On an intact store that create cannot fail, because no
  grant can name the environment created a moment earlier. The model asserts
  this instead.
- Fixtures.TestSetup is split into three group methods: referencing rows,
  engine rows, account rows. They run in the source's order. The split only
  keeps each proof small.
- Scenarios.GitopsEngineInstanceAndClusterSteps: line 312 looks up the engine
  instance by the cluster's id, not by the instance's id. The model replays
  the lookup as written and proves its NotFound. No other property rests on it.
- Scenarios.ClusterUserScenario: requires that no user has the id
  "does-not-exist". The test assumes this of the database.
- Concurrent access from several tests is not modelled. Each scenario runs
  alone on the store.
