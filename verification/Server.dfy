/** What one pass of the dispatch loop, and one message from an agent, does to the store.
 *
 *  These functions are the specification the orchestrator's loops are proved against; the run
 *  theorems are proved about them.
 */
module Server {
  import opened Optional
  import opened Jobs
  import opened Capacity
  import opened Store
  import opened Dispatch
  import Hardening
  import Reconcile

  const QUEUE_WINDOW: nat := 512

  const HELD_STATES: seq<JobState> := [Assigned, Running, Verifying, Committing]

  const DISPATCHABLE_STATES: seq<JobState> := [Pending, Eligible]

  datatype Server = Server(db: Db, ledger: Ledger)

  /** What the world shows one placement: whether a plan can be built, the epoch of the agent's stream
   *  if it still has one, and whether the assignment was delivered.
   */
  datatype Site = Site(ready: bool, epoch: Option<nat>, delivered: bool)

  /** What the world shows one pass.  `order` lists every job, most urgent first; `ages` lists every
   *  intent, oldest first.
   */
  datatype World = World(
    connected: set<AgentId>,
    leases: map<AgentId, int>,
    now: int,
    order: seq<JobId>,
    ages: seq<IntentId>,
    fleet: seq<AgentEntry>,
    paused: bool,
    legible: JobId -> bool,
    sites: JobId -> Site)

  // ---- Queries

  function InState(db: Db, order: seq<JobId>, s: JobState): seq<JobId> {
    if order == [] then []
    else
      var most := InState(db, order[..|order| - 1], s);
      if db.In(order[|order| - 1], s) && |most| < QUEUE_WINDOW then most + [order[|order| - 1]] else most
  }

  function InStates(db: Db, order: seq<JobId>, states: seq<JobState>): seq<JobId> {
    if states == [] then []
    else InStates(db, order, states[..|states| - 1]) + InState(db, order, states[|states| - 1])
  }

  function LiveIntents(db: Db, ages: seq<IntentId>): seq<IntentId> {
    if ages == [] then []
    else
      LiveIntents(db, ages[..|ages| - 1])
      + if db.Live(ages[|ages| - 1]) then [ages[|ages| - 1]] else []
  }

  // ---- Returning a job to the queue

  /** What becomes of a job in `Retrying` after the given attempt of so many. */
  function Retried(db: Db, j: JobId, attempt: nat, maxAttempts: nat): Option<Db> {
    match Hardening.DecideRetry(Hardening.Transient, attempt, maxAttempts)
    case RetryAfter(_, _) => Transition(BumpAttempt(db, j), j, Retrying, Eligible)
    case DeadLetter => Transition(db, j, Retrying, DeadLettered)
    case Stop => Transition(db, j, Retrying, Failed)
  }

  /** The store after a write that may have been refused: a refusal changes nothing. */
  function Either(e: Option<Db>, db: Db): Db { if e.Some? then e.value else db }

  function Requeued(db: Db, j: JobId, from: JobState): (Db, bool) {
    if j !in db.jobs then (db, false)
    else
      var row := db.jobs[j];
      var freed := Resolve(db, IntentId(j, row.attempt));
      match Transition(freed, j, from, Retrying)
      case None => (freed, false)
      case Some(t) =>
        match Retried(t, j, row.attempt, row.maxAttempts)
        case None => (t, false)
        case Some(e) => (e, true)
  }

  // ---- Reconciling

  function FlightOf(db: Db, j: JobId, w: World): Reconcile.InFlight
    requires j in db.jobs
  {
    var row := db.jobs[j];
    Reconcile.InFlight(
      j, row.state, row.agent,
      if row.agent.Some? && row.agent.value in w.leases then Some(w.leases[row.agent.value]) else None,
      row.state == Committing && HasLive(db, j))
  }

  function FlightsOf(db: Db, ids: seq<JobId>, w: World): seq<Reconcile.InFlight>
    requires forall j | j in ids :: j in db.jobs
  {
    if ids == [] then [] else FlightsOf(db, ids[..|ids| - 1], w) + [FlightOf(db, ids[|ids| - 1], w)]
  }

  function Applied(s: Server, act: Reconcile.Action): Server {
    match act
    case Requeue(j, from) =>
      var (db, ok) := Requeued(s.db, j, from);
      Server(db, if ok then Released(s.ledger, j) else s.ledger)
    case Escalate(j) => s.(db := Either(Transition(s.db, j, Committing, NeedsOperator), s.db))
    case ReleaseCapacity(j) => s.(ledger := Released(s.ledger, j))
  }

  function AppliedAll(s: Server, acts: seq<Reconcile.Action>): Server {
    if acts == [] then s else Applied(AppliedAll(s, acts[..|acts| - 1]), acts[|acts| - 1])
  }

  lemma {:induction false} InStateMembers(db: Db, order: seq<JobId>, s: JobState)
    ensures forall j | j in InState(db, order, s) :: j in order && db.In(j, s)
  {
    if order != [] {
      InStateMembers(db, order[..|order| - 1], s);
    }
  }

  lemma {:induction false} InStatesMembers(db: Db, order: seq<JobId>, states: seq<JobState>)
    ensures forall j | j in InStates(db, order, states) :: j in order && j in db.jobs && db.jobs[j].state in states
  {
    if states != [] {
      InStatesMembers(db, order, states[..|states| - 1]);
      InStateMembers(db, order, states[|states| - 1]);
    }
  }

  function Reconciled(s: Server, w: World): Server {
    var ids := InStates(s.db, w.order, HELD_STATES);
    InStatesMembers(s.db, w.order, HELD_STATES);
    AppliedAll(s, Reconcile.Verdicts(FlightsOf(s.db, ids, w), w.connected, w.now, Reconcile.LEASE_GRACE_SECONDS))
  }

  /** Nothing will ever come back to resolve an intent of such a job. */
  predicate Stranded(db: Db, j: JobId) {
    j !in db.jobs || (db.jobs[j].state.IsTerminal() && db.jobs[j].state != NeedsOperator)
  }

  function Swept(db: Db, live: seq<IntentId>): Db {
    if live == [] then db
    else
      var most := Swept(db, live[..|live| - 1]);
      if Stranded(most, live[|live| - 1].job) then Resolve(most, live[|live| - 1]) else most
  }

  // ---- Rebuilding the ledger

  function RowsOf(db: Db, ids: seq<JobId>): seq<Row>
    requires forall j | j in ids :: j in db.jobs
  {
    if ids == [] then []
    else
      var row := db.jobs[ids[|ids| - 1]];
      RowsOf(db, ids[..|ids| - 1])
      + if row.agent.Some? then [Row(row.agent.value, ids[|ids| - 1], row.needs, row.state)] else []
  }

  /** The rows are those of the listed jobs that have an agent, as the jobs are. */
  lemma {:induction false} RowsAre(db: Db, ids: seq<JobId>)
    requires forall j | j in ids :: j in db.jobs
    ensures forall r | r in RowsOf(db, ids) ::
      && r.job in ids && db.jobs[r.job].agent == Some(r.agent)
      && r.grant == db.jobs[r.job].needs && r.state == db.jobs[r.job].state
    ensures forall j | j in ids && db.jobs[j].agent.Some? ::
      Row(db.jobs[j].agent.value, j, db.jobs[j].needs, db.jobs[j].state) in RowsOf(db, ids)
  {
    if ids != [] {
      var n := |ids| - 1;
      assert ids == ids[..n] + [ids[n]];
      RowsAre(db, ids[..n]);
    }
  }

  function AllLimited(l: Ledger, fleet: seq<AgentEntry>, lim: AgentLimits): Ledger {
    if fleet == [] then l
    else
      Limited(AllLimited(l, fleet[..|fleet| - 1], lim), fleet[|fleet| - 1].id, lim)
  }

  function Rebuilt(l: Ledger, db: Db, order: seq<JobId>, fleet: seq<AgentEntry>, lim: AgentLimits): Ledger {
    var ids := InStates(db, order, HELD_STATES);
    InStatesMembers(db, order, HELD_STATES);
    Replay(Emptied(AllLimited(l, fleet, lim)), RowsOf(db, ids)).0
  }

  // ---- Placing

  function QueuedOf(db: Db, ids: seq<JobId>, legible: JobId -> bool): (qs: seq<QueuedJob>)
    requires forall j | j in ids :: j in db.jobs
  {
    if ids == [] then []
    else
      var j := ids[|ids| - 1];
      var row := db.jobs[j];
      QueuedOf(db, ids[..|ids| - 1], legible)
      + if legible(j)
        then [QueuedJob(j, row.needs.class_, row.needs.size, row.requirements, row.bucketKey, [])]
        else []
  }

  /** Hand a job over whose destination has been reserved, or take both back. */
  function HandedTo(db: Db, j: JobId, seen: JobRow, a: AgentId, epoch: nat, delivered: bool): (Db, bool) {
    match if seen.state == Pending then Transition(db, j, Pending, Eligible) else Some(db)
    case None => (db, false)
    case Some(ready) =>
      match Assign(ready, j, a, epoch)
      case None => (ready, false)
      case Some(handed) => if delivered then (handed, true) else (Requeued(handed, j, Assigned).0, false)
  }

  /** Reserve the destination, then hand the job over; take both back if it could not be sent. */
  function PlacedOn(db: Db, j: JobId, seen: JobRow, a: AgentId, site: Site): (Db, bool) {
    if !site.ready || site.epoch.None? then (db, false)
    else
      match GrantIntent(db, IntentId(j, seen.attempt), a, site.epoch.value, seen.path)
      case None => (db, false)
      case Some(granted) => HandedTo(granted, j, seen, a, site.epoch.value, site.delivered)
  }

  /** Carry out placements decided on the rows of `seen`, handing back the slot of each one that failed. */
  function PlacedAll(s: Server, seen: Db, os: seq<Outcome>, sites: JobId -> Site): Server
    requires forall o | o in os :: o.Placed? && o.job in seen.jobs
  {
    if os == [] then s
    else
      var most := PlacedAll(s, seen, os[..|os| - 1], sites);
      var o := os[|os| - 1];
      var (db, ok) := PlacedOn(most.db, o.job, seen.jobs[o.job], o.agent, sites(o.job));
      Server(db, if ok then most.ledger else Released(most.ledger, o.job))
  }

  lemma {:induction false} QueuedMembers(db: Db, ids: seq<JobId>, legible: JobId -> bool)
    requires forall j | j in ids :: j in db.jobs
    ensures forall q | q in QueuedOf(db, ids, legible) ::
      && q.id in ids && q.Needs() == db.jobs[q.id].needs
      && q.requirements == db.jobs[q.id].requirements && q.bucketKey == db.jobs[q.id].bucketKey
  {
    if ids != [] {
      QueuedMembers(db, ids[..|ids| - 1], legible);
    }
  }

  lemma {:induction false} PlacementsAreOutcomes(os: seq<Outcome>)
    ensures forall o :: o in Placements(os) <==> o.Placed? && o in os
  {
    if os != [] {
      var n := |os| - 1;
      assert os == os[..n] + [os[n]];
      PlacementsAreOutcomes(os[..n]);
    }
  }

  lemma {:induction false} OutcomesAreQueued(agents: seq<AgentEntry>, jobs: seq<QueuedJob>, l: Ledger)
    ensures forall i | 0 <= i < |jobs| :: Outcomes(agents, jobs, l)[i].job == jobs[i].id
  {
    if jobs != [] {
      var n := |jobs| - 1;
      OutcomesAreQueued(agents, jobs[..n], l);
      PlaceIsJustified(agents, jobs[n], LedgerAfter(agents, jobs[..n], l));
    }
  }

  lemma PlacementsAreQueued(agents: seq<AgentEntry>, jobs: seq<QueuedJob>, l: Ledger)
    ensures forall o | o in Placements(Outcomes(agents, jobs, l)) ::
      o.Placed? && exists i | 0 <= i < |jobs| :: jobs[i].id == o.job
  {
    var os := Outcomes(agents, jobs, l);
    PlacementsAreOutcomes(os);
    OutcomesAreQueued(agents, jobs, l);
    forall o | o in Placements(os) ensures exists i | 0 <= i < |jobs| :: jobs[i].id == o.job {
      var i :| 0 <= i < |os| && os[i] == o;
      assert jobs[i].id == o.job;
    }
  }

  // ---- One pass

  /** The round a pass decides on, once the ledger has been rebuilt. */
  function RoundOf(s: Server, w: World): (os: seq<Outcome>)
    ensures forall o | o in os :: o.Placed? && o.job in s.db.jobs && s.db.jobs[o.job].state in DISPATCHABLE_STATES
  {
    var ids := InStates(s.db, w.order, DISPATCHABLE_STATES);
    InStatesMembers(s.db, w.order, DISPATCHABLE_STATES);
    var queued := QueuedOf(s.db, ids, w.legible);
    QueuedMembers(s.db, ids, w.legible);
    PlacementsAreQueued(w.fleet, queued, s.ledger);
    Placements(Outcomes(w.fleet, queued, s.ledger))
  }

  /** The ledger a round leaves behind. */
  function RoundLedger(s: Server, w: World): Ledger {
    var ids := InStates(s.db, w.order, DISPATCHABLE_STATES);
    InStatesMembers(s.db, w.order, DISPATCHABLE_STATES);
    LedgerAfter(w.fleet, QueuedOf(s.db, ids, w.legible), s.ledger)
  }

  /** Everything before the round: reconcile, sweep, rebuild. */
  function Prepared(s: Server, w: World, lim: AgentLimits): Server {
    var r := Reconciled(s, w);
    var db := Swept(r.db, LiveIntents(r.db, w.ages));
    Server(db, if w.fleet == [] then r.ledger else Rebuilt(r.ledger, db, w.order, w.fleet, lim))
  }

  function Dispatched(s: Server, w: World): Server {
    PlacedAll(Server(s.db, RoundLedger(s, w)), s.db, RoundOf(s, w), w.sites)
  }

  function Ticked(s: Server, w: World, lim: AgentLimits): Server {
    var p := Prepared(s, w, lim);
    if w.fleet == [] || w.paused then p else Dispatched(p, w)
  }

  // ---- Messages from agents, and the operator

  /** A result is heeded from the job's holder at the job's epoch; its attempt is not looked at. */
  predicate Heeded(db: Db, a: AgentId, epoch: nat, j: JobId) {
    j in db.jobs && db.jobs[j].agent == Some(a) && db.jobs[j].epoch == epoch
  }

  function ResultIn(db: Db, a: AgentId, epoch: nat, j: JobId, passed: bool): Db {
    if !Heeded(db, a, epoch, j) then db
    else
      var row := db.jobs[j];
      var started := if row.state == Assigned then Either(Transition(db, j, Assigned, Running), db) else db;
      if passed then Either(Transition(started, j, Running, Verifying), started)
      else
        var freed := Resolve(started, IntentId(j, row.attempt));
        match Transition(freed, j, Running, Retrying)
        case None => freed
        case Some(t) => Either(Retried(t, j, row.attempt, row.maxAttempts), t)
  }

  /** A live intent of this job that this agent holds under this epoch. */
  predicate IntentHeld(db: Db, a: AgentId, epoch: nat, j: JobId) {
    exists i | i in db.intents ::
      i.job == j && db.intents[i].live && db.intents[i].agent == a && db.intents[i].epoch == epoch
  }

  /** Permission to install is written down before it is given; what cannot be written is not given. */
  function CommitAsked(db: Db, a: AgentId, epoch: nat, j: JobId): (Db, bool) {
    if !IntentHeld(db, a, epoch, j) || j !in db.jobs then (db, false)
    else
      match Transition(db, j, Verifying, Committing)
      case None => (db, false)
      case Some(e) => (e, true)
  }

  datatype Report = Installed | SourceKept | Undecided

  function OutcomeOf(r: Report): JobState {
    match r
    case Installed => Succeeded
    case Undecided => NeedsOperator
    case SourceKept => Failed
  }

  function ReportIn(db: Db, a: AgentId, epoch: nat, i: IntentId, r: Report): Db {
    if !db.Live(i) || db.intents[i].agent != a || db.intents[i].epoch != epoch then db
    else
      var freed := Resolve(db, i);
      Either(Transition(freed, i.job, Committing, OutcomeOf(r)), freed)
  }

  /** A job mid-commit is never cancelled; one that is held only by force. */
  function CancelAsked(db: Db, j: JobId, force: bool): Db {
    if j !in db.jobs then db
    else
      var from := db.jobs[j].state;
      if from.IsTerminal() || from == Committing || (from.HoldsCapacity() && !force) then db
      else Either(Transition(db, j, from, Cancelled), db)
  }

  /** A record an agent replays is disowned when neither its job nor its path has a live intent. */
  predicate Disowned(db: Db, j: JobId, path: Path) { !HasLive(db, j) && !db.PathTaken(path) }
}
