/** The job table and the commit-intent ledger, and the guarded writes both are changed through. */
module Store {
  import opened Optional
  import opened Jobs
  import opened Capability
  import opened Capacity

  type Path = string

  datatype JobRow = JobRow(
    state: JobState,
    attempt: nat,
    maxAttempts: nat,
    agent: Option<AgentId>,
    epoch: nat,
    path: Path,
    needs: Grant,
    requirements: seq<Requirement>,
    bucketKey: Bucket)

  datatype IntentId = IntentId(job: JobId, attempt: nat)

  datatype IntentRow = IntentRow(agent: AgentId, epoch: nat, path: Path, live: bool)

  datatype Db = Db(jobs: map<JobId, JobRow>, intents: map<IntentId, IntentRow>) {
    predicate In(j: JobId, s: JobState) { j in jobs && jobs[j].state == s }

    predicate Holds(j: JobId) { j in jobs && jobs[j].state.HoldsCapacity() }

    predicate Live(i: IntentId) { i in intents && intents[i].live }

    /** The intent the current attempt of a job was granted. */
    function Current(j: JobId): IntentId
      requires j in jobs
    {
      IntentId(j, jobs[j].attempt)
    }

    predicate PathTaken(p: Path) { exists i | i in intents :: intents[i].live && intents[i].path == p }

    /** The intents of one job. */
    function IntentsOf(j: JobId): set<IntentId> { set i | i in intents && i.job == j }
  }

  const DEFAULT_MAX_ATTEMPTS: nat := 3

  function With(db: Db, j: JobId, row: JobRow): Db { db.(jobs := db.jobs[j := row]) }

  /** A new job for a path with no open job. */
  function Create(db: Db, j: JobId, path: Path, needs: Grant, reqs: seq<Requirement>): Option<Db> {
    if j in db.jobs || exists k | k in db.jobs :: db.jobs[k].path == path && !db.jobs[k].state.IsTerminal() then None
    else Some(With(db, j, JobRow(Pending, 0, DEFAULT_MAX_ATTEMPTS, None, 0, path, needs, reqs, BucketKey(reqs))))
  }

  /** A legal edge, taken only from the state it was decided on. */
  function Transition(db: Db, j: JobId, from: JobState, to: JobState): Option<Db> {
    if !CanTransition(from, to) || !db.In(j, from) then None
    else Some(With(db, j, db.jobs[j].(state := to)))
  }

  function Assign(db: Db, j: JobId, a: AgentId, epoch: nat): Option<Db> {
    if !db.In(j, Eligible) then None
    else Some(With(db, j, db.jobs[j].(state := Assigned, agent := Some(a), epoch := epoch)))
  }

  function BumpAttempt(db: Db, j: JobId): Db {
    if j in db.jobs then With(db, j, db.jobs[j].(attempt := db.jobs[j].attempt + 1)) else db
  }

  /** An id is granted once, and a path is reserved by one live intent at a time. */
  function GrantIntent(db: Db, id: IntentId, a: AgentId, epoch: nat, path: Path): Option<Db> {
    if id in db.intents || db.PathTaken(path) then None
    else Some(db.(intents := db.intents[id := IntentRow(a, epoch, path, true)]))
  }

  /** Resolving what is not live changes nothing. */
  function Resolve(db: Db, id: IntentId): Db {
    if db.Live(id) then db.(intents := db.intents[id := db.intents[id].(live := false)]) else db
  }

  predicate HasLive(db: Db, j: JobId) { exists i | i in db.intents :: i.job == j && db.intents[i].live }
}
