/** Records shared by the replicas of the sandbox control plane: the lease and job tables in
    Postgres and the pods in the cluster, with the statements that change them. Each statement
    is a function from the table before to the table after, or `None` when it affects no row. */
module Records {

  import opened Wrappers

  const WORKSPACE_LEASE_TTL_MS := 30_000

  type JobId = nat
  type Token = nat
  type Holder = nat
  type PodName = nat

  datatype Key = Key(assistant: nat, workspace: nat)

  // ---------------------------------------------------------------- jobs

  datatype Status = Queued | Running | Detached | Completed | Failed | Blocked | Cancelled
  {
    predicate Terminal() { Completed? || Failed? || Blocked? || Cancelled? }

    /** "Pending" in the source: the statuses a lease holder still works on. */
    predicate Active() { Queued? || Running? }

    function Rank(): nat {
      if Queued? then 0 else if Running? then 1 else if Detached? then 2 else 3
    }
  }

  datatype Job = Job(key: Key, status: Status, createdAt: int, startedAt: Option<int>, completedAt: Option<int>)

  /** The columns every job writer sets together. */
  function Moved(job: Job, status: Status, at: int): Job {
    job.(status := status,
         startedAt := if status.Running? then Some(at) else job.startedAt,
         completedAt := if status.Terminal() then Some(at) else job.completedAt)
  }

  // ---------------------------------------------------------------- leases

  datatype Lease = Lease(job: Option<JobId>, token: Token, holder: Holder, expiresAt: int)

  /** What a token was installed for. A released row carries a fresh tombstone token. */
  datatype Issue = Held(key: Key, job: JobId, holder: Holder) | Tombstone

  /** `issued` records every token ever installed in the lease table. Tokens are random UUIDs,
      so a statement installs only tokens that are not in it. */
  datatype Db = Db(leases: map<Key, Lease>, jobs: map<JobId, Job>, issued: map<Token, Issue>)

  /** The exact lease test of every authoritative check: token, holder, job and expiry. */
  predicate HoldsLease(db: Db, key: Key, job: JobId, token: Token, holder: Holder, at: int) {
    && key in db.leases
    && db.leases[key].job == Some(job)
    && db.leases[key].token == token
    && db.leases[key].holder == holder
    && db.leases[key].expiresAt > at
  }

  function Install(db: Db, key: Key, job: JobId, token: Token, holder: Holder, expiresAt: int): Db {
    db.(leases := db.leases[key := Lease(Some(job), token, holder, expiresAt)],
        issued := db.issued[token := Held(key, job, holder)])
  }

  /** INSERT; the unique index on (assistant, workspace) rejects a second row. */
  function CreateLease(db: Db, key: Key, job: JobId, token: Token, holder: Holder, expiresAt: int): Option<Db> {
    if key in db.leases then None else Some(Install(db, key, job, token, holder, expiresAt))
  }

  /** UPDATE of a row whose lease ran out before `at`. */
  function ClaimLease(db: Db, key: Key, job: JobId, token: Token, holder: Holder, expiresAt: int, at: int): Option<Db> {
    if key in db.leases && db.leases[key].expiresAt < at
    then Some(Install(db, key, job, token, holder, expiresAt))
    else None
  }

  /** The new expiry was computed when the handle was built, the guard when the statement was. */
  function RenewLease(db: Db, key: Key, job: JobId, token: Token, holder: Holder, expiresAt: int, at: int): Option<Db> {
    if && key in db.leases && db.leases[key].token == token
       && db.leases[key].holder == holder && db.leases[key].expiresAt > at
    then Some(db.(leases := db.leases[key := db.leases[key].(job := Some(job), expiresAt := expiresAt)]))
    else None
  }

  function ReleaseLease(db: Db, key: Key, token: Token, holder: Holder, tombstone: Token, at: int): Option<Db> {
    if key in db.leases && db.leases[key].token == token && db.leases[key].holder == holder
    then Some(db.(leases := db.leases[key := Lease(None, tombstone, holder, at)],
                  issued := db.issued[tombstone := Tombstone]))
    else None
  }

  /** UPDATE of one job row, conditional on its present status and an empty completion time. */
  function UpdateJob(db: Db, job: JobId, from: set<Status>, status: Status, at: int): Option<Db> {
    if job in db.jobs && db.jobs[job].status in from && db.jobs[job].completedAt.None?
    then Some(db.(jobs := db.jobs[job := Moved(db.jobs[job], status, at)]))
    else None
  }

  /** The same, and only while the exact lease is still authoritative. */
  function UpdateJobUnderLease(db: Db, job: JobId, key: Key, token: Token, holder: Holder,
                               from: Status, status: Status, at: int): Option<Db> {
    if job in db.jobs && db.jobs[job].key == key && HoldsLease(db, key, job, token, holder, at)
    then UpdateJob(db, job, {from}, status, at)
    else None
  }

  predicate ActiveJob(db: Db, key: Key, job: JobId) {
    job in db.jobs && db.jobs[job].key == key && db.jobs[job].status.Active()
  }

  predicate ActiveLease(db: Db, key: Key, job: JobId, token: Token, at: int) {
    && key in db.leases && db.leases[key].job == Some(job)
    && db.leases[key].token == token && db.leases[key].expiresAt > at
  }

  // ---------------------------------------------------------------- pods

  datatype Mode = Restricted | FullPublic

  /** A pod as the API server stores it. The generation stamp is two separate annotations. */
  datatype Pod = Pod(name: PodName, uid: nat, version: nat, createdAt: int, owner: Option<Key>, handle: nat, mode: Option<Mode>,
                     stampJob: Option<JobId>, stampToken: Option<Token>, baseline: Option<seq<nat>>)
  {
    predicate Stamped(job: JobId, token: Token) {
      stampJob == Some(job) && stampToken == Some(token)
    }

    predicate Unstamped() { stampJob.None? && stampToken.None? }

    /** Equal but for the parts the control plane rewrites. */
    predicate SamePod(that: Pod) {
      name == that.name && uid == that.uid && createdAt == that.createdAt && owner == that.owner && handle == that.handle && mode == that.mode
    }
  }

  /** `log` keeps every version ever stored, by resource version. */
  datatype Cluster = Cluster(pods: map<PodName, Pod>, log: map<nat, Pod>, nextUid: nat, nextVersion: nat)

  function Store(cluster: Cluster, pod: Pod): Cluster {
    var stored := pod.(version := cluster.nextVersion);
    cluster.(pods := cluster.pods[pod.name := stored],
             log := cluster.log[stored.version := stored],
             nextVersion := cluster.nextVersion + 1)
  }

  /** Create; a pod of that name is a 409. Creation never stamps. */
  function CreatePod(cluster: Cluster, name: PodName, owner: Option<Key>, handle: nat, mode: Mode, at: int): Option<Cluster> {
    if name in cluster.pods then None
    else Some(Store(cluster.(nextUid := cluster.nextUid + 1),
                    Pod(name, cluster.nextUid, 0, at, owner, handle, Some(mode), None, None, None)))
  }

  /** Replace with the metadata that was read: a compare-and-swap on uid and resource version. */
  function ReplacePod(cluster: Cluster, body: Pod): Option<Cluster> {
    if && body.name in cluster.pods && cluster.pods[body.name].version == body.version
       && cluster.pods[body.name].uid == body.uid
    then Some(Store(cluster, body))
    else None
  }

  /** Delete with preconditions; `None` is a 409. A missing pod counts as deleted. */
  function DeletePod(cluster: Cluster, name: PodName, uid: nat, version: Option<nat>): Option<Cluster> {
    if name !in cluster.pods then Some(cluster)
    else if cluster.pods[name].uid == uid && (version.Some? ==> cluster.pods[name].version == version.value)
    then Some(cluster.(pods := cluster.pods - {name}))
    else None
  }
}
