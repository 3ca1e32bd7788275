/** The database-query interface over the in-memory store: raw Create /
    Get / Delete / ListAll operations without authorization, and the checked
    operations that consult the ownership graph for a requesting user. */
module Queries {
  import opened Results
  import opened Entities
  import opened Schema
  import opened Ownership

  class DatabaseQueries {
    var users: map<string, ClusterUser>
    var credentials: map<string, ClusterCredentials>
    var environments: map<string, ManagedEnvironment>
    var engineClusters: map<string, GitopsEngineCluster>
    var engineInstances: map<string, GitopsEngineInstance>
    var clusterAccess: set<ClusterAccess>
    var applications: map<string, Application>
    var applicationStates: map<string, ApplicationState>
    var operations: map<string, Operation>

    /** The current contents of every table, as a value. */
    function Snapshot(): Tables
      reads this
    {
      Tables(users, credentials, environments, engineClusters, engineInstances,
             clusterAccess, applications, applicationStates, operations)
    }

    /** An empty store: no connection to an existing database is modelled. */
    constructor()
      ensures Valid()
      ensures Snapshot() == Tables(map[], map[], map[], map[], map[], {}, map[], map[], map[])
    {
      users, credentials, environments, engineClusters, engineInstances := map[], map[], map[], map[], map[];
      clusterAccess, applications, applicationStates, operations := {}, map[], map[], map[];
    }

    /** Rows sit under their keys and every foreign key resolves: Schema.WellFormed
        of the snapshot, unfolded field by field so that each method's frame
        names only the fields it touches (ValidIsWellFormed). */
    ghost predicate Valid()
      reads this
    {
      && UsersKeyed(users) && CredentialsKeyed(credentials) && EnvironmentsKeyed(environments)
      && EngineClustersKeyed(engineClusters) && EngineInstancesKeyed(engineInstances)
      && ApplicationsKeyed(applications) && ApplicationStatesKeyed(applicationStates) && OperationsKeyed(operations)
      && EnvironmentsResolve(environments, credentials)
      && EngineClustersResolve(engineClusters, credentials)
      && EngineInstancesResolve(engineInstances, engineClusters)
      && GrantsResolve(clusterAccess, users, environments, engineInstances)
      && ApplicationsResolve(applications, environments, engineInstances)
      && ApplicationStatesResolve(applicationStates, applications)
      && OperationsResolve(operations, engineInstances, users)
    }

    lemma ValidIsWellFormed()
      ensures Valid() <==> WellFormed(Snapshot())
    {
    }

    // ---------------------------------------------------------------- ClusterUser

    method CreateClusterUser(user: ClusterUser) returns (status: Status)
      requires Valid()
      modifies this`users
      ensures Valid()
      ensures Snapshot() == old(Snapshot()).(users := users)
      ensures user.clusterUserId in old(users) ==> status == Failure(ConstraintViolation) && users == old(users)
      ensures user.clusterUserId !in old(users) ==> status == Success && users == old(users)[user.clusterUserId := user]
    {
      if user.clusterUserId in users {
        status := Failure(ConstraintViolation);
      } else {
        users := users[user.clusterUserId := user];
        status := Success;
      }
    }

    method GetClusterUserById(id: string) returns (r: Result<ClusterUser>)
      ensures r.Ok? <==> id in users
      ensures r.Ok? ==> r.value == users[id]
      ensures r.Err? ==> r.error == NotFound
    {
      r := if id in users then Ok(users[id]) else Err(NotFound);
    }

    method DeleteClusterUserById(id: string) returns (rowsAffected: nat)
      requires Valid()
      requires !UserInUse(Snapshot(), id)
      modifies this`users
      ensures Valid()
      ensures rowsAffected == if id in old(users) then 1 else 0
      ensures users == old(users) - {id}
    {
      rowsAffected := if id in users then 1 else 0;
      users := users - {id};
    }

    method UnsafeListAllClusterUsers() returns (rows: seq<ClusterUser>)
      requires UsersKeyed(users)
      ensures forall j | 0 <= j < |rows| :: rows[j].clusterUserId in users && users[rows[j].clusterUserId] == rows[j]
      ensures forall i, j | 0 <= i < j < |rows| :: rows[i].clusterUserId != rows[j].clusterUserId
      ensures forall id | id in users :: exists j | 0 <= j < |rows| :: rows[j].clusterUserId == id
    {
      var table := users;
      var ids := Enumerate(table.Keys);
      rows := seq(|ids|, j requires 0 <= j < |ids| => table[ids[j]]);
      forall id | id in users ensures exists j | 0 <= j < |rows| :: rows[j].clusterUserId == id {
        var j :| 0 <= j < |ids| && ids[j] == id;
        assert rows[j].clusterUserId == id;
      }
    }

    // ---------------------------------------------------------------- ClusterCredentials

    method CreateClusterCredentials(creds: ClusterCredentials) returns (status: Status)
      requires Valid()
      modifies this`credentials
      ensures Valid()
      ensures Snapshot() == old(Snapshot()).(credentials := credentials)
      ensures creds.clusterCredentialsId in old(credentials) ==>
                status == Failure(ConstraintViolation) && credentials == old(credentials)
      ensures creds.clusterCredentialsId !in old(credentials) ==>
                status == Success && credentials == old(credentials)[creds.clusterCredentialsId := creds]
    {
      if creds.clusterCredentialsId in credentials {
        status := Failure(ConstraintViolation);
      } else {
        credentials := credentials[creds.clusterCredentialsId := creds];
        status := Success;
      }
    }

    method GetClusterCredentialsById(id: string) returns (r: Result<ClusterCredentials>)
      ensures r.Ok? <==> id in credentials
      ensures r.Ok? ==> r.value == credentials[id]
      ensures r.Err? ==> r.error == NotFound
    {
      r := if id in credentials then Ok(credentials[id]) else Err(NotFound);
    }

    /** Visible only through a grant reaching an environment or engine cluster
        that uses the credentials; a denial is reported as NotFound. */
    method CheckedGetClusterCredentialsById(id: string, userId: string) returns (r: Result<ClusterCredentials>)
      ensures r.Ok? <==> id in credentials && CredentialsAuthorized(Snapshot(), userId, id)
      ensures r.Ok? ==> r.value == credentials[id]
      ensures r.Err? ==> r.error == NotFound
    {
      if id in credentials && CredentialsAuthorized(Snapshot(), userId, id) {
        r := Ok(credentials[id]);
      } else {
        r := Err(NotFound);
      }
    }

    method DeleteClusterCredentialsById(id: string) returns (rowsAffected: nat)
      requires Valid()
      requires !CredentialsInUse(Snapshot(), id)
      modifies this`credentials
      ensures Valid()
      ensures rowsAffected == if id in old(credentials) then 1 else 0
      ensures credentials == old(credentials) - {id}
    {
      rowsAffected := if id in credentials then 1 else 0;
      credentials := credentials - {id};
    }

    method UnsafeListAllClusterCredentials() returns (rows: seq<ClusterCredentials>)
      requires CredentialsKeyed(credentials)
      ensures forall j | 0 <= j < |rows| ::
                rows[j].clusterCredentialsId in credentials && credentials[rows[j].clusterCredentialsId] == rows[j]
      ensures forall i, j | 0 <= i < j < |rows| :: rows[i].clusterCredentialsId != rows[j].clusterCredentialsId
      ensures forall id | id in credentials :: exists j | 0 <= j < |rows| :: rows[j].clusterCredentialsId == id
    {
      var table := credentials;
      var ids := Enumerate(table.Keys);
      rows := seq(|ids|, j requires 0 <= j < |ids| => table[ids[j]]);
      forall id | id in credentials ensures exists j | 0 <= j < |rows| :: rows[j].clusterCredentialsId == id {
        var j :| 0 <= j < |ids| && ids[j] == id;
        assert rows[j].clusterCredentialsId == id;
      }
    }

    // ---------------------------------------------------------------- ManagedEnvironment

    method CreateManagedEnvironment(env: ManagedEnvironment) returns (status: Status)
      requires Valid()
      requires env.clusterCredentialsId in credentials
      modifies this`environments
      ensures Valid()
      ensures Snapshot() == old(Snapshot()).(environments := environments)
      ensures env.managedEnvironmentId in old(environments) ==>
                status == Failure(ConstraintViolation) && environments == old(environments)
      ensures env.managedEnvironmentId !in old(environments) ==>
                status == Success && environments == old(environments)[env.managedEnvironmentId := env]
    {
      if env.managedEnvironmentId in environments {
        status := Failure(ConstraintViolation);
      } else {
        environments := environments[env.managedEnvironmentId := env];
        status := Success;
      }
    }

    /** Visible only to a user holding a grant that names the environment. */
    method CheckedGetManagedEnvironmentById(id: string, userId: string) returns (r: Result<ManagedEnvironment>)
      ensures r.Ok? <==> id in environments && EnvironmentAuthorized(Snapshot(), userId, id)
      ensures r.Ok? ==> r.value == environments[id]
      ensures r.Err? ==> r.error == NotFound
    {
      if id in environments && EnvironmentAuthorized(Snapshot(), userId, id) {
        r := Ok(environments[id]);
      } else {
        r := Err(NotFound);
      }
    }

    method DeleteManagedEnvironmentById(id: string) returns (rowsAffected: nat)
      requires Valid()
      requires !EnvironmentInUse(Snapshot(), id)
      modifies this`environments
      ensures Valid()
      ensures rowsAffected == if id in old(environments) then 1 else 0
      ensures environments == old(environments) - {id}
    {
      rowsAffected := if id in environments then 1 else 0;
      environments := environments - {id};
    }

    method UnsafeListAllManagedEnvironments() returns (rows: seq<ManagedEnvironment>)
      requires EnvironmentsKeyed(environments)
      ensures forall j | 0 <= j < |rows| ::
                rows[j].managedEnvironmentId in environments && environments[rows[j].managedEnvironmentId] == rows[j]
      ensures forall i, j | 0 <= i < j < |rows| :: rows[i].managedEnvironmentId != rows[j].managedEnvironmentId
      ensures forall id | id in environments :: exists j | 0 <= j < |rows| :: rows[j].managedEnvironmentId == id
    {
      var table := environments;
      var ids := Enumerate(table.Keys);
      rows := seq(|ids|, j requires 0 <= j < |ids| => table[ids[j]]);
      forall id | id in environments ensures exists j | 0 <= j < |rows| :: rows[j].managedEnvironmentId == id {
        var j :| 0 <= j < |ids| && ids[j] == id;
        assert rows[j].managedEnvironmentId == id;
      }
    }

    // ---------------------------------------------------------------- GitopsEngineCluster

    method CreateGitopsEngineCluster(cluster: GitopsEngineCluster) returns (status: Status)
      requires Valid()
      requires cluster.clusterCredentialsId in credentials
      modifies this`engineClusters
      ensures Valid()
      ensures Snapshot() == old(Snapshot()).(engineClusters := engineClusters)
      ensures cluster.gitopsEngineClusterId in old(engineClusters) ==>
                status == Failure(ConstraintViolation) && engineClusters == old(engineClusters)
      ensures cluster.gitopsEngineClusterId !in old(engineClusters) ==>
                status == Success && engineClusters == old(engineClusters)[cluster.gitopsEngineClusterId := cluster]
    {
      if cluster.gitopsEngineClusterId in engineClusters {
        status := Failure(ConstraintViolation);
      } else {
        engineClusters := engineClusters[cluster.gitopsEngineClusterId := cluster];
        status := Success;
      }
    }

    /** Visible only through a grant naming an engine instance on the cluster. */
    method CheckedGetGitopsEngineClusterById(id: string, userId: string) returns (r: Result<GitopsEngineCluster>)
      ensures r.Ok? <==> id in engineClusters && EngineClusterAuthorized(Snapshot(), userId, id)
      ensures r.Ok? ==> r.value == engineClusters[id]
      ensures r.Err? ==> r.error == NotFound
    {
      if id in engineClusters && EngineClusterAuthorized(Snapshot(), userId, id) {
        r := Ok(engineClusters[id]);
      } else {
        r := Err(NotFound);
      }
    }

    method DeleteGitopsEngineClusterById(id: string) returns (rowsAffected: nat)
      requires Valid()
      requires !EngineClusterInUse(Snapshot(), id)
      modifies this`engineClusters
      ensures Valid()
      ensures rowsAffected == if id in old(engineClusters) then 1 else 0
      ensures engineClusters == old(engineClusters) - {id}
    {
      rowsAffected := if id in engineClusters then 1 else 0;
      engineClusters := engineClusters - {id};
    }

    method UnsafeListAllGitopsEngineClusters() returns (rows: seq<GitopsEngineCluster>)
      requires EngineClustersKeyed(engineClusters)
      ensures forall j | 0 <= j < |rows| ::
                rows[j].gitopsEngineClusterId in engineClusters && engineClusters[rows[j].gitopsEngineClusterId] == rows[j]
      ensures forall i, j | 0 <= i < j < |rows| :: rows[i].gitopsEngineClusterId != rows[j].gitopsEngineClusterId
      ensures forall id | id in engineClusters :: exists j | 0 <= j < |rows| :: rows[j].gitopsEngineClusterId == id
    {
      var table := engineClusters;
      var ids := Enumerate(table.Keys);
      rows := seq(|ids|, j requires 0 <= j < |ids| => table[ids[j]]);
      forall id | id in engineClusters ensures exists j | 0 <= j < |rows| :: rows[j].gitopsEngineClusterId == id {
        var j :| 0 <= j < |ids| && ids[j] == id;
        assert rows[j].gitopsEngineClusterId == id;
      }
    }

    // ---------------------------------------------------------------- GitopsEngineInstance

    method CreateGitopsEngineInstance(instance: GitopsEngineInstance) returns (status: Status)
      requires Valid()
      requires instance.engineClusterId in engineClusters
      modifies this`engineInstances
      ensures Valid()
      ensures Snapshot() == old(Snapshot()).(engineInstances := engineInstances)
      ensures instance.gitopsEngineInstanceId in old(engineInstances) ==>
                status == Failure(ConstraintViolation) && engineInstances == old(engineInstances)
      ensures instance.gitopsEngineInstanceId !in old(engineInstances) ==>
                status == Success && engineInstances == old(engineInstances)[instance.gitopsEngineInstanceId := instance]
    {
      if instance.gitopsEngineInstanceId in engineInstances {
        status := Failure(ConstraintViolation);
      } else {
        engineInstances := engineInstances[instance.gitopsEngineInstanceId := instance];
        status := Success;
      }
    }

    /** Visible only to a user holding a grant that names the instance. */
    method CheckedGetGitopsEngineInstanceById(id: string, userId: string) returns (r: Result<GitopsEngineInstance>)
      ensures r.Ok? <==> id in engineInstances && EngineInstanceAuthorized(Snapshot(), userId, id)
      ensures r.Ok? ==> r.value == engineInstances[id]
      ensures r.Err? ==> r.error == NotFound
    {
      if id in engineInstances && EngineInstanceAuthorized(Snapshot(), userId, id) {
        r := Ok(engineInstances[id]);
      } else {
        r := Err(NotFound);
      }
    }

    method DeleteGitopsEngineInstanceById(id: string) returns (rowsAffected: nat)
      requires Valid()
      requires !EngineInstanceInUse(Snapshot(), id)
      modifies this`engineInstances
      ensures Valid()
      ensures rowsAffected == if id in old(engineInstances) then 1 else 0
      ensures engineInstances == old(engineInstances) - {id}
    {
      rowsAffected := if id in engineInstances then 1 else 0;
      engineInstances := engineInstances - {id};
    }

    method UnsafeListAllGitopsEngineInstances() returns (rows: seq<GitopsEngineInstance>)
      requires EngineInstancesKeyed(engineInstances)
      ensures forall j | 0 <= j < |rows| ::
                rows[j].gitopsEngineInstanceId in engineInstances && engineInstances[rows[j].gitopsEngineInstanceId] == rows[j]
      ensures forall i, j | 0 <= i < j < |rows| :: rows[i].gitopsEngineInstanceId != rows[j].gitopsEngineInstanceId
      ensures forall id | id in engineInstances :: exists j | 0 <= j < |rows| :: rows[j].gitopsEngineInstanceId == id
    {
      var table := engineInstances;
      var ids := Enumerate(table.Keys);
      rows := seq(|ids|, j requires 0 <= j < |ids| => table[ids[j]]);
      forall id | id in engineInstances ensures exists j | 0 <= j < |rows| :: rows[j].gitopsEngineInstanceId == id {
        var j :| 0 <= j < |ids| && ids[j] == id;
        assert rows[j].gitopsEngineInstanceId == id;
      }
    }

    // ---------------------------------------------------------------- ClusterAccess

    method CreateClusterAccess(grant: ClusterAccess) returns (status: Status)
      requires Valid()
      requires grant.userId in users
      requires grant.managedEnvironmentId in environments
      requires grant.gitopsEngineInstanceId in engineInstances
      modifies this`clusterAccess
      ensures Valid()
      ensures Snapshot() == old(Snapshot()).(clusterAccess := clusterAccess)
      ensures grant in old(clusterAccess) ==> status == Failure(ConstraintViolation) && clusterAccess == old(clusterAccess)
      ensures grant !in old(clusterAccess) ==> status == Success && clusterAccess == old(clusterAccess) + {grant}
    {
      if grant in clusterAccess {
        status := Failure(ConstraintViolation);
      } else {
        clusterAccess := clusterAccess + {grant};
        status := Success;
      }
    }

    /** Deletes by the composite (user, environment, instance) key. */
    method DeleteClusterAccessById(userId: string, environmentId: string, instanceId: string)
      returns (rowsAffected: nat)
      requires Valid()
      modifies this`clusterAccess
      ensures Valid()
      ensures rowsAffected == if ClusterAccess(userId, environmentId, instanceId) in old(clusterAccess) then 1 else 0
      ensures clusterAccess == old(clusterAccess) - {ClusterAccess(userId, environmentId, instanceId)}
    {
      var key := ClusterAccess(userId, environmentId, instanceId);
      rowsAffected := if key in clusterAccess then 1 else 0;
      clusterAccess := clusterAccess - {key};
    }

    method UnsafeListAllClusterAccess() returns (rows: seq<ClusterAccess>)
      ensures forall j | 0 <= j < |rows| :: rows[j] in clusterAccess
      ensures forall i, j | 0 <= i < j < |rows| :: rows[i] != rows[j]
      ensures forall g | g in clusterAccess :: g in rows
    {
      rows := Enumerate(clusterAccess);
    }

    // ---------------------------------------------------------------- Application

    /** Inserts only for a user whose grant names the application's
        (environment, instance) pair; otherwise reports NotFound and inserts nothing. */
    method CheckedCreateApplication(app: Application, userId: string) returns (status: Status)
      requires Valid()
      modifies this`applications
      ensures Valid()
      ensures Snapshot() == old(Snapshot()).(applications := applications)
      ensures !ApplicationAuthorized(old(Snapshot()), userId, app) ==>
                status == Failure(NotFound) && applications == old(applications)
      ensures ApplicationAuthorized(old(Snapshot()), userId, app) && app.applicationId in old(applications) ==>
                status == Failure(ConstraintViolation) && applications == old(applications)
      ensures ApplicationAuthorized(old(Snapshot()), userId, app) && app.applicationId !in old(applications) ==>
                status == Success && applications == old(applications)[app.applicationId := app]
    {
      if !ApplicationAuthorized(Snapshot(), userId, app) {
        status := Failure(NotFound);
      } else if app.applicationId in applications {
        status := Failure(ConstraintViolation);
      } else {
        applications := applications[app.applicationId := app];
        status := Success;
      }
    }

    method GetApplicationById(id: string) returns (r: Result<Application>)
      ensures r.Ok? <==> id in applications
      ensures r.Ok? ==> r.value == applications[id]
      ensures r.Err? ==> r.error == NotFound
    {
      r := if id in applications then Ok(applications[id]) else Err(NotFound);
    }

    method DeleteApplicationById(id: string) returns (rowsAffected: nat)
      requires Valid()
      requires !ApplicationInUse(Snapshot(), id)
      modifies this`applications
      ensures Valid()
      ensures rowsAffected == if id in old(applications) then 1 else 0
      ensures applications == old(applications) - {id}
    {
      rowsAffected := if id in applications then 1 else 0;
      applications := applications - {id};
    }

    /** Deletes only for a user whose grant names the application's pair; a
        denial deletes nothing and reports 0 rows, exactly as an absent row does. */
    method CheckedDeleteApplicationById(id: string, userId: string) returns (rowsAffected: nat)
      requires Valid()
      requires id in applications && ApplicationAuthorized(Snapshot(), userId, applications[id]) ==>
                 !ApplicationInUse(Snapshot(), id)
      modifies this`applications
      ensures Valid()
      ensures var allowed := id in old(applications) && ApplicationAuthorized(old(Snapshot()), userId, old(applications)[id]);
              && rowsAffected == (if allowed then 1 else 0)
              && applications == (if allowed then old(applications) - {id} else old(applications))
    {
      if id in applications && ApplicationAuthorized(Snapshot(), userId, applications[id]) {
        applications := applications - {id};
        rowsAffected := 1;
      } else {
        rowsAffected := 0;
      }
    }

    method UnsafeListAllApplications() returns (rows: seq<Application>)
      requires ApplicationsKeyed(applications)
      ensures forall j | 0 <= j < |rows| ::
                rows[j].applicationId in applications && applications[rows[j].applicationId] == rows[j]
      ensures forall i, j | 0 <= i < j < |rows| :: rows[i].applicationId != rows[j].applicationId
      ensures forall id | id in applications :: exists j | 0 <= j < |rows| :: rows[j].applicationId == id
    {
      var table := applications;
      var ids := Enumerate(table.Keys);
      rows := seq(|ids|, j requires 0 <= j < |ids| => table[ids[j]]);
      forall id | id in applications ensures exists j | 0 <= j < |rows| :: rows[j].applicationId == id {
        var j :| 0 <= j < |ids| && ids[j] == id;
        assert rows[j].applicationId == id;
      }
    }

    // ---------------------------------------------------------------- ApplicationState

    method DeleteApplicationStateById(id: string) returns (rowsAffected: nat)
      requires Valid()
      modifies this`applicationStates
      ensures Valid()
      ensures rowsAffected == if id in old(applicationStates) then 1 else 0
      ensures applicationStates == old(applicationStates) - {id}
    {
      rowsAffected := if id in applicationStates then 1 else 0;
      applicationStates := applicationStates - {id};
    }

    method UnsafeListAllApplicationStates() returns (rows: seq<ApplicationState>)
      requires ApplicationStatesKeyed(applicationStates)
      ensures forall j | 0 <= j < |rows| ::
                rows[j].applicationId in applicationStates && applicationStates[rows[j].applicationId] == rows[j]
      ensures forall i, j | 0 <= i < j < |rows| :: rows[i].applicationId != rows[j].applicationId
      ensures forall id | id in applicationStates :: exists j | 0 <= j < |rows| :: rows[j].applicationId == id
    {
      var table := applicationStates;
      var ids := Enumerate(table.Keys);
      rows := seq(|ids|, j requires 0 <= j < |ids| => table[ids[j]]);
      forall id | id in applicationStates ensures exists j | 0 <= j < |rows| :: rows[j].applicationId == id {
        var j :| 0 <= j < |ids| && ids[j] == id;
        assert rows[j].applicationId == id;
      }
    }

    // ---------------------------------------------------------------- Operation

    /** Inserts the operation with its owner recorded as ownerId. */
    method CreateOperation(op: Operation, ownerId: string) returns (status: Status)
      requires Valid()
      requires op.instanceId in engineInstances
      requires ownerId in users
      modifies this`operations
      ensures Valid()
      ensures Snapshot() == old(Snapshot()).(operations := operations)
      ensures op.operationId in old(operations) ==> status == Failure(ConstraintViolation) && operations == old(operations)
      ensures op.operationId !in old(operations) ==>
                status == Success && operations == old(operations)[op.operationId := op.(ownerUserId := ownerId)]
    {
      if op.operationId in operations {
        status := Failure(ConstraintViolation);
      } else {
        operations := operations[op.operationId := op.(ownerUserId := ownerId)];
        status := Success;
      }
    }

    /** Visible only to the operation's owner. */
    method CheckedGetOperationById(id: string, userId: string) returns (r: Result<Operation>)
      ensures r.Ok? <==> id in operations && OperationAuthorized(userId, operations[id])
      ensures r.Ok? ==> r.value == operations[id]
      ensures r.Err? ==> r.error == NotFound
    {
      if id in operations && OperationAuthorized(userId, operations[id]) {
        r := Ok(operations[id]);
      } else {
        r := Err(NotFound);
      }
    }

    /** Deletes only for the owner; anyone else gets 0 rows and no change. */
    method CheckedDeleteOperationById(id: string, userId: string) returns (rowsAffected: nat)
      requires Valid()
      modifies this`operations
      ensures Valid()
      ensures var allowed := id in old(operations) && OperationAuthorized(userId, old(operations)[id]);
              && rowsAffected == (if allowed then 1 else 0)
              && operations == (if allowed then old(operations) - {id} else old(operations))
    {
      if id in operations && OperationAuthorized(userId, operations[id]) {
        operations := operations - {id};
        rowsAffected := 1;
      } else {
        rowsAffected := 0;
      }
    }

    method UnsafeListAllOperations() returns (rows: seq<Operation>)
      requires OperationsKeyed(operations)
      ensures forall j | 0 <= j < |rows| ::
                rows[j].operationId in operations && operations[rows[j].operationId] == rows[j]
      ensures forall i, j | 0 <= i < j < |rows| :: rows[i].operationId != rows[j].operationId
      ensures forall id | id in operations :: exists j | 0 <= j < |rows| :: rows[j].operationId == id
    {
      var table := operations;
      var ids := Enumerate(table.Keys);
      rows := seq(|ids|, j requires 0 <= j < |ids| => table[ids[j]]);
      forall id | id in operations ensures exists j | 0 <= j < |rows| :: rows[j].operationId == id {
        var j :| 0 <= j < |ids| && ids[j] == id;
        assert rows[j].operationId == id;
      }
    }
  }
}
