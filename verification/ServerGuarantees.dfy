/** What follows for every run: reservations are given once, attempts run out, an undecided file stays
 *  reserved, and where an interrupted write would break the agreement.
 */
module ServerGuarantees {
  import opened Optional
  import opened Jobs
  import opened Capability
  import opened Capacity
  import opened Store
  import opened Dispatch
  import opened Server
  import opened ServerInvariant
  import opened ServerPass
  import opened ServerRuns

  // ---- History is never rewritten

  /** What one store may become: rows are only added, finished jobs are frozen, attempts only counted
   *  up, and an intent keeps its holder and its path and never comes back to life.
   */
  ghost predicate Later(db: Db, e: Db) {
    && db.jobs.Keys <= e.jobs.Keys && db.intents.Keys <= e.intents.Keys
    && (forall j | j in db.jobs :: RowLater(db.jobs[j], e.jobs[j]))
    && (forall i | i in db.intents :: IntentLater(db.intents[i], e.intents[i]))
  }

  predicate RowLater(r: JobRow, t: JobRow) {
    && t.path == r.path && t.needs == r.needs && t.maxAttempts == r.maxAttempts && r.attempt <= t.attempt
    && t.requirements == r.requirements && t.bucketKey == r.bucketKey
    && (r.state.IsTerminal() ==> t == r)
  }

  predicate IntentLater(r: IntentRow, t: IntentRow) {
    t.agent == r.agent && t.epoch == r.epoch && t.path == r.path && (t.live ==> r.live)
  }

  lemma LaterIsTransitive(d: Db, e: Db, f: Db)
    requires Later(d, e) && Later(e, f)
    ensures Later(d, f)
  {
    forall j | j in d.jobs ensures RowLater(d.jobs[j], f.jobs[j]) {
      assert RowLater(d.jobs[j], e.jobs[j]) && RowLater(e.jobs[j], f.jobs[j]);
    }
    forall i | i in d.intents ensures IntentLater(d.intents[i], f.intents[i]) {
      assert IntentLater(d.intents[i], e.intents[i]) && IntentLater(e.intents[i], f.intents[i]);
    }
  }

  lemma TransitionIsLater(db: Db, j: JobId, from: JobState, to: JobState)
    ensures Later(db, Either(Transition(db, j, from, to), db))
  {
  }

  lemma ResolveIsLater(db: Db, i: IntentId)
    ensures Later(db, Resolve(db, i))
  {
  }

  lemma RequeuedIsLater(db: Db, j: JobId, from: JobState)
    ensures Later(db, Requeued(db, j, from).0)
  {
    if j in db.jobs {
      var freed := Resolve(db, db.Current(j));
      ResolveIsLater(db, db.Current(j));
      if Transition(freed, j, from, Retrying).Some? {
        LeavingIsLater(freed, j, from, db.jobs[j].attempt, db.jobs[j].maxAttempts);
        LaterIsTransitive(db, freed, Requeued(db, j, from).0);
      }
    }
  }

  lemma LeavingIsLater(db: Db, j: JobId, from: JobState, attempt: nat, maxAttempts: nat)
    requires Transition(db, j, from, Retrying).Some?
    ensures
      var t := Transition(db, j, from, Retrying).value;
      Later(db, Either(Retried(t, j, attempt, maxAttempts), t))
  {
    var t := Transition(db, j, from, Retrying).value;
    TransitionIsLater(db, j, from, Retrying);
    LaterIsTransitive(db, t, Either(Retried(t, j, attempt, maxAttempts), t));
  }

  lemma {:induction false} ActionsAreLater(s: Server, acts: seq<Reconcile.Action>)
    ensures Later(s.db, AppliedAll(s, acts).db)
  {
    if acts != [] {
      var n := |acts| - 1;
      ActionsAreLater(s, acts[..n]);
      var m := AppliedAll(s, acts[..n]);
      ActionIsLater(m, acts[n]);
      LaterIsTransitive(s.db, m.db, AppliedAll(s, acts).db);
    }
  }

  lemma ActionIsLater(s: Server, act: Reconcile.Action)
    ensures Later(s.db, Applied(s, act).db)
  {
    match act
    case Requeue(j, from) => RequeuedIsLater(s.db, j, from);
    case Escalate(j) => TransitionIsLater(s.db, j, Committing, NeedsOperator);
    case ReleaseCapacity(_) =>
  }

  lemma {:induction false} SweptIsLater(db: Db, live: seq<IntentId>)
    ensures Later(db, Swept(db, live))
  {
    if live != [] {
      var n := |live| - 1;
      SweptIsLater(db, live[..n]);
      ResolveIsLater(Swept(db, live[..n]), live[n]);
      LaterIsTransitive(db, Swept(db, live[..n]), Swept(db, live));
    }
  }

  lemma HandingOverIsLater(db: Db, j: JobId, a: AgentId, epoch: nat, id: IntentId, path: Path)
    ensures Later(db, Either(Assign(db, j, a, epoch), db))
    ensures Later(db, Either(GrantIntent(db, id, a, epoch, path), db))
  {
  }

  lemma SendingIsLater(db: Db, j: JobId, a: AgentId, epoch: nat)
    ensures
      var handed := Assign(db, j, a, epoch);
      handed.Some? ==> Later(db, handed.value) && Later(db, Requeued(handed.value, j, Assigned).0)
  {
    HandingOverIsLater(db, j, a, epoch, IntentId(j, 0), "");
    var handed := Assign(db, j, a, epoch);
    if handed.Some? {
      RequeuedIsLater(handed.value, j, Assigned);
      LaterIsTransitive(db, handed.value, Requeued(handed.value, j, Assigned).0);
    }
  }

  lemma HandedToIsLater(db: Db, j: JobId, seen: JobRow, a: AgentId, epoch: nat, delivered: bool)
    ensures Later(db, HandedTo(db, j, seen, a, epoch, delivered).0)
  {
    var ready := if seen.state == Pending then Transition(db, j, Pending, Eligible) else Some(db);
    TransitionIsLater(db, j, Pending, Eligible);
    if ready.Some? {
      SendingIsLater(ready.value, j, a, epoch);
      LaterIsTransitive(db, ready.value, HandedTo(db, j, seen, a, epoch, delivered).0);
    }
  }

  lemma PlacedOnIsLater(db: Db, j: JobId, seen: JobRow, a: AgentId, site: Site)
    ensures Later(db, PlacedOn(db, j, seen, a, site).0)
  {
    if site.ready && site.epoch.Some? {
      var id := IntentId(j, seen.attempt);
      var granted := GrantIntent(db, id, a, site.epoch.value, seen.path);
      HandingOverIsLater(db, j, a, site.epoch.value, id, seen.path);
      if granted.Some? {
        HandedToIsLater(granted.value, j, seen, a, site.epoch.value, site.delivered);
        LaterIsTransitive(db, granted.value, PlacedOn(db, j, seen, a, site).0);
      }
    }
  }

  lemma {:induction false} PlacedAllIsLater(s: Server, seen: Db, os: seq<Outcome>, sites: JobId -> Site)
    requires forall o | o in os :: o.Placed? && o.job in seen.jobs
    ensures Later(s.db, PlacedAll(s, seen, os, sites).db)
  {
    if os != [] {
      var n := |os| - 1;
      PlacedAllIsLater(s, seen, os[..n], sites);
      var m := PlacedAll(s, seen, os[..n], sites);
      PlacedOnIsLater(m.db, os[n].job, seen.jobs[os[n].job], os[n].agent, sites(os[n].job));
      LaterIsTransitive(s.db, m.db, PlacedAll(s, seen, os, sites).db);
    }
  }

  lemma PreparedIsLater(s: Server, w: World, lim: AgentLimits)
    ensures Later(s.db, Prepared(s, w, lim).db)
  {
    var ids := InStates(s.db, w.order, HELD_STATES);
    InStatesMembers(s.db, w.order, HELD_STATES);
    ActionsAreLater(s, Reconcile.Verdicts(FlightsOf(s.db, ids, w), w.connected, w.now, Reconcile.LEASE_GRACE_SECONDS));
    var r := Reconciled(s, w);
    SweptIsLater(r.db, LiveIntents(r.db, w.ages));
    LaterIsTransitive(s.db, r.db, Prepared(s, w, lim).db);
  }

  lemma TickIsLater(s: Server, w: World, lim: AgentLimits)
    ensures Later(s.db, Ticked(s, w, lim).db)
  {
    PreparedIsLater(s, w, lim);
    var p := Prepared(s, w, lim);
    if w.fleet != [] && !w.paused {
      PlacedAllIsLater(Server(p.db, RoundLedger(p, w)), p.db, RoundOf(p, w), w.sites);
      LaterIsTransitive(s.db, p.db, Ticked(s, w, lim).db);
    }
  }

  lemma ResultIsLater(db: Db, a: AgentId, epoch: nat, j: JobId, passed: bool)
    ensures Later(db, ResultIn(db, a, epoch, j, passed))
  {
    if Heeded(db, a, epoch, j) {
      var row := db.jobs[j];
      var i := db.Current(j);
      var started := if row.state == Assigned then Either(Transition(db, j, Assigned, Running), db) else db;
      TransitionIsLater(db, j, Assigned, Running);
      TransitionIsLater(started, j, Running, Verifying);
      ResolveIsLater(started, i);
      var freed := Resolve(started, i);
      LaterIsTransitive(db, started, ResultIn(db, a, epoch, j, true));
      LaterIsTransitive(db, started, freed);
      var t := Transition(freed, j, Running, Retrying);
      if t.Some? {
        LeavingIsLater(freed, j, Running, row.attempt, row.maxAttempts);
        LaterIsTransitive(db, freed, Either(Retried(t.value, j, row.attempt, row.maxAttempts), t.value));
      }
    }
  }

  lemma ReportIsLater(db: Db, a: AgentId, epoch: nat, i: IntentId, r: Report)
    ensures Later(db, ReportIn(db, a, epoch, i, r))
  {
    var freed := Resolve(db, i);
    ResolveIsLater(db, i);
    TransitionIsLater(freed, i.job, Committing, OutcomeOf(r));
    LaterIsTransitive(db, freed, Either(Transition(freed, i.job, Committing, OutcomeOf(r)), freed));
  }

  lemma CreateIsLater(db: Db, j: JobId, path: Path, needs: Grant, reqs: seq<Requirement>)
    ensures Later(db, Either(Create(db, j, path, needs, reqs), db))
  {
  }

  lemma NextIsLater(s: Server, e: Event, lim: AgentLimits)
    ensures Later(s.db, Next(s, e, lim).db)
  {
    match e
    case Tick(w) => TickIsLater(s, w, lim);
    case Result(a, epoch, j, passed) => ResultIsLater(s.db, a, epoch, j, passed);
    case CommitRequest(a, epoch, j) => TransitionIsLater(s.db, j, Verifying, Committing);
    case CommitReport(a, epoch, i, r) => ReportIsLater(s.db, a, epoch, i, r);
    case Cancel(j, force) =>
      if j in s.db.jobs { TransitionIsLater(s.db, j, s.db.jobs[j].state, Cancelled); }
    case NewJob(j, path, needs, reqs) => CreateIsLater(s.db, j, path, needs, reqs);
  }

  /** In every run, legal or not, an intent id is granted once and, once closed, stays closed; a
   *  finished job is never changed again.
   */
  lemma {:induction false} HistoryIsNeverRewritten(s: Server, es: seq<Event>, lim: AgentLimits)
    ensures Later(s.db, Run(s, es, lim).db)
  {
    if es != [] {
      var n := |es| - 1;
      HistoryIsNeverRewritten(s, es[..n], lim);
      NextIsLater(Run(s, es[..n], lim), es[n], lim);
      LaterIsTransitive(s.db, Run(s, es[..n], lim).db, Run(s, es, lim).db);
    }
  }

  // ---- The budget

  /** A job is handed out on a new intent id every time, and there are no more of those than attempts. */
  lemma AssignmentsWithinBudget(db: Db, j: JobId)
    requires Sound(db) && j in db.jobs
    ensures |db.IntentsOf(j)| <= if db.jobs[j].maxAttempts > 1 then db.jobs[j].maxAttempts else 1
  {
    assert JobSound(db, j);
    AttemptsAreFew(db.IntentsOf(j), j, db.jobs[j].attempt);
  }

  lemma {:induction false} AttemptsAreFew(ids: set<IntentId>, j: JobId, n: nat)
    requires forall i | i in ids :: i.job == j && i.attempt <= n
    ensures |ids| <= n + 1
  {
    if n == 0 {
      assert ids <= {IntentId(j, 0)};
      SubsetCardinality(ids, {IntentId(j, 0)});
    } else {
      var rest := ids - {IntentId(j, n)};
      AttemptsAreFew(rest, j, n - 1);
      SubsetCardinality(ids, rest + {IntentId(j, n)});
    }
  }

  // ---- Files nobody has decided about

  /** The destination of a job that waits for an operator is reserved by its live intent. */
  predicate Undecided(db: Db, i: IntentId) { db.In(i.job, NeedsOperator) && db.Live(i) }

  /** Mid-commit, or waiting for an operator, with its destination reserved. */
  predicate OnDisk(db: Db, i: IntentId) {
    db.Live(i) && i.job in db.jobs && db.jobs[i.job].state in {Committing, NeedsOperator}
  }

  lemma SilenceKeepsOnDisk(db: Db, e: Db, i: IntentId, w: World)
    requires OnDisk(db, i)
    requires Untouched(db, e, i.job) || (db.Holds(i.job) && Untouched(AfterSilence(db, i.job, w), e, i.job))
    ensures OnDisk(e, i)
  {
  }

  lemma ReconciledAt(s: Server, w: World, j: JobId)
    requires Sound(s.db) && Listed(s.db, w) && j in s.db.jobs
    ensures Untouched(s.db, Reconciled(s, w).db, j)
      || (s.db.Holds(j) && Untouched(AfterSilence(s.db, j, w), Reconciled(s, w).db, j))
  {
    ReconciledKeepsSound(s, w);
    InStatesMembers(s.db, w.order, HELD_STATES);
  }

  lemma SweptKeepsOnDisk(db: Db, live: seq<IntentId>, i: IntentId)
    requires OnDisk(db, i)
    ensures OnDisk(Swept(db, live), i)
  {
    SweptIs(db, live);
  }

  lemma DispatchedAt(s: Server, w: World, j: JobId)
    requires Sound(s.db) && Listed(s.db, w) && j in s.db.jobs && s.db.jobs[j].state !in {Pending, Eligible}
    ensures Untouched(s.db, Dispatched(s, w).db, j)
  {
    RoundPlacesOnce(s, w);
    PlacedAllIsSound(Server(s.db, RoundLedger(s, w)), RoundOf(s, w), w.sites);
    assert !InRound(RoundOf(s, w), j);
  }

  lemma PreparedKeepsOnDisk(s: Server, w: World, lim: AgentLimits, i: IntentId)
    requires Sound(s.db) && Listed(s.db, w) && OnDisk(s.db, i)
    ensures OnDisk(Prepared(s, w, lim).db, i)
  {
    ReconciledAt(s, w, i.job);
    SilenceKeepsOnDisk(s.db, Reconciled(s, w).db, i, w);
    SweptKeepsOnDisk(Reconciled(s, w).db, LiveIntents(Reconciled(s, w).db, w.ages), i);
  }

  /** No pass frees the destination of a job that is mid-commit, or that an operator was asked about;
   *  and no pass decides such a job on its own.
   */
  lemma TickNeverReleasesACommit(s: Server, w: World, lim: AgentLimits, i: IntentId)
    requires Sound(s.db) && Listed(s.db, w) && OnDisk(s.db, i)
    ensures OnDisk(Ticked(s, w, lim).db, i)
  {
    PreparedKeepsOnDisk(s, w, lim, i);
    PreparedIsSound(s, w, lim);
    DispatchedAt(Prepared(s, w, lim), w, i.job);
  }

  lemma ResultKeepsOnDisk(db: Db, a: AgentId, epoch: nat, j: JobId, passed: bool, i: IntentId)
    requires OnDisk(db, i) && (passed || !LateFailure(db, a, epoch, j))
    ensures OnDisk(ResultIn(db, a, epoch, j, passed), i)
  {
    if j != i.job && Heeded(db, a, epoch, j) { ResultIsLocal(db, a, epoch, j, passed); }
  }

  lemma WritesAreLocal(db: Db, j: JobId, from: JobState, to: JobState, i: IntentId)
    requires i.job == j
    ensures OnlyAt(db, Either(Transition(db, j, from, to), db), j) && OnlyAt(db, Resolve(db, i), j)
  {
  }

  lemma RetriedIsLocal(db: Db, j: JobId, attempt: nat, maxAttempts: nat)
    ensures OnlyAt(db, Either(Retried(db, j, attempt, maxAttempts), db), j)
  {
  }

  lemma ResultIsLocal(db: Db, a: AgentId, epoch: nat, j: JobId, passed: bool)
    requires Heeded(db, a, epoch, j)
    ensures OnlyAt(db, ResultIn(db, a, epoch, j, passed), j)
  {
    var row := db.jobs[j];
    var i := db.Current(j);
    var started := if row.state == Assigned then Either(Transition(db, j, Assigned, Running), db) else db;
    WritesAreLocal(db, j, Assigned, Running, i);
    WritesAreLocal(started, j, Running, Verifying, i);
    var freed := Resolve(started, i);
    WritesAreLocal(freed, j, Running, Retrying, i);
    var t := Transition(freed, j, Running, Retrying);
    if t.Some? {
      RetriedIsLocal(t.value, j, row.attempt, row.maxAttempts);
    }
  }

  /** A report that names another intent, or comes from an agent that does not hold this one. */
  lemma ReportKeepsOnDisk(db: Db, a: AgentId, epoch: nat, k: IntentId, r: Report, i: IntentId)
    requires OnDisk(db, i) && JobSound(db, i.job) && (k != i || a != db.intents[i].agent)
    ensures OnDisk(ReportIn(db, a, epoch, k, r), i)
  {
  }

  lemma OthersKeepOnDisk(s: Server, e: Event, lim: AgentLimits, i: IntentId)
    requires OnDisk(s.db, i) && (e.CommitRequest? || e.Cancel? || e.NewJob?)
    ensures OnDisk(Next(s, e, lim).db, i)
  {
  }

  /** Only its own agent's report ends the reservation of a file that is, or may be, half installed. */
  lemma NextKeepsOnDisk(s: Server, e: Event, lim: AgentLimits, i: IntentId)
    requires Sound(s.db) && Legal(s.db, e) && OnDisk(s.db, i)
    requires !(e.CommitReport? && e.i == i && e.a == s.db.intents[i].agent)
    ensures OnDisk(Next(s, e, lim).db, i)
  {
    match e
    case Tick(w) => TickNeverReleasesACommit(s, w, lim, i);
    case Result(a, epoch, j, passed) => ResultKeepsOnDisk(s.db, a, epoch, j, passed, i);
    case CommitReport(a, epoch, k, r) =>
      assert JobSound(s.db, i.job);
      ReportKeepsOnDisk(s.db, a, epoch, k, r, i);
    case _ => OthersKeepOnDisk(s, e, lim, i);
  }

  lemma NextKeepsUndecided(s: Server, e: Event, lim: AgentLimits, i: IntentId)
    requires Sound(s.db) && Legal(s.db, e) && Undecided(s.db, i)
    requires !(e.CommitReport? && e.i == i)
    ensures Undecided(Next(s, e, lim).db, i)
  {
    NextKeepsOnDisk(s, e, lim, i);
    NextIsLater(s, e, lim);
    assert RowLater(s.db.jobs[i.job], Next(s, e, lim).db.jobs[i.job]);
  }

  lemma {:induction false} RunKeepsUndecided(s: Server, es: seq<Event>, lim: AgentLimits, i: IntentId)
    requires Sound(s.db) && AllLegal(s, es, lim) && Undecided(s.db, i)
    requires forall e | e in es :: !(e.CommitReport? && e.i == i)
    ensures Undecided(Run(s, es, lim).db, i)
  {
    if es != [] {
      var n := |es| - 1;
      LegalSoFar(s, es, lim);
      forall e | e in es[..n] ensures e in es {
      }
      RunKeepsUndecided(s, es[..n], lim, i);
      RunIsSound(s, es[..n], lim);
      assert es[n] in es;
      NextKeepsUndecided(Run(s, es[..n], lim), es[n], lim, i);
    }
  }

  /** Until the agent that holds it reports, a file that waits for an operator stays reserved, whatever
   *  else the server is told; and no other job for that file is ever handed out meanwhile.
   */
  lemma UndecidedFileStaysReserved(s: Server, es: seq<Event>, lim: AgentLimits, i: IntentId, j: JobId)
    requires Sound(s.db) && AllLegal(s, es, lim) && Undecided(s.db, i)
    requires forall e | e in es :: !(e.CommitReport? && e.i == i)
    ensures Undecided(Run(s, es, lim).db, i)
    ensures Run(s, es, lim).db.Holds(j) ==> Run(s, es, lim).db.jobs[j].path != s.db.intents[i].path
  {
    RunKeepsUndecided(s, es, lim, i);
    RunIsSound(s, es, lim);
    HistoryIsNeverRewritten(s, es, lim);
    var db := Run(s, es, lim).db;
    assert IntentLater(s.db.intents[i], db.intents[i]);
  }

  // ---- Silence is neither success nor failure

  /** Its install has been decided on. */
  predicate Settles(db: Db, j: JobId) { db.In(j, Succeeded) || db.In(j, Failed) }

  lemma PlacedOnSettlesNothing(db: Db, k: JobId, seen: JobRow, a: AgentId, site: Site, j: JobId)
    requires Sound(db) && Waiting(db, k, seen)
    ensures Settles(PlacedOn(db, k, seen, a, site).0, j) ==> Settles(db, j)
  {
    PlacedOnIs(db, k, seen, a, site);
  }

  lemma {:induction false} PlacedAllSettlesNothing(s: Server, os: seq<Outcome>, sites: JobId -> Site, j: JobId)
    requires Sound(s.db) && Round(s.db, os)
    ensures Settles(PlacedAll(s, s.db, os, sites).db, j) ==> Settles(s.db, j)
  {
    if os != [] {
      var n := |os| - 1;
      NextIsWaiting(s, os, sites);
      PlacedAllSettlesNothing(s, os[..n], sites, j);
      var m := PlacedAll(s, s.db, os[..n], sites);
      PlacedOnSettlesNothing(m.db, os[n].job, s.db.jobs[os[n].job], os[n].agent, sites(os[n].job), j);
    }
  }

  lemma SilenceSettlesNothing(db: Db, e: Db, w: World, j: JobId)
    requires Untouched(db, e, j) || (db.Holds(j) && Untouched(AfterSilence(db, j, w), e, j))
    ensures Settles(e, j) ==> Settles(db, j)
  {
  }

  lemma PreparedSettlesNothing(s: Server, w: World, lim: AgentLimits, j: JobId)
    requires Sound(s.db) && Listed(s.db, w)
    ensures Settles(Prepared(s, w, lim).db, j) ==> Settles(s.db, j)
  {
    ReconciledKeepsKeys(s, w);
    if j in s.db.jobs {
      ReconciledAt(s, w, j);
      SilenceSettlesNothing(s.db, Reconciled(s, w).db, w, j);
    }
    SweptIs(Reconciled(s, w).db, LiveIntents(Reconciled(s, w).db, w.ages));
  }

  /** No pass ever marks a job as having succeeded or failed: only a report does. */
  lemma TickSettlesNothing(s: Server, w: World, lim: AgentLimits, j: JobId)
    requires Sound(s.db) && Listed(s.db, w)
    ensures Settles(Ticked(s, w, lim).db, j) ==> Settles(s.db, j)
  {
    PreparedSettlesNothing(s, w, lim, j);
    PreparedIsSound(s, w, lim);
    var p := Prepared(s, w, lim);
    RoundPlacesOnce(p, w);
    PlacedAllSettlesNothing(Server(p.db, RoundLedger(p, w)), RoundOf(p, w), w.sites, j);
  }

  // ---- Writes that are cut short

  /** The store when a placement is cut after its reservation was written and before the job moved. */
  function CutPlacement(db: Db, j: JobId, a: AgentId, epoch: nat): Db
    requires j in db.jobs
  {
    Either(GrantIntent(db, db.Current(j), a, epoch, db.jobs[j].path), db)
  }

  /** A placement cut there wedges the job for good: its reservation is live though nobody holds it, no
   *  sweep frees it, and every later placement of the job is refused.
   */
  lemma CutPlacementWedges(db: Db, j: JobId, a: AgentId, epoch: nat, b: AgentId, site: Site, live: seq<IntentId>)
    requires Sound(db) && db.In(j, Eligible) && !db.PathTaken(db.jobs[j].path)
    ensures
      var e := CutPlacement(db, j, a, epoch);
      && e.Live(e.Current(j)) && !e.Holds(j) && !Sound(e)
      && Swept(e, live).Live(e.Current(j))
      && PlacedOn(Swept(e, live), j, e.jobs[j], b, site) == (Swept(e, live), false)
  {
    assert JobSound(db, j);
    var e := CutPlacement(db, j, a, epoch);
    assert e.Current(j) in e.intents && !JobSound(e, j);
    SweptIs(e, live);
  }

  /** The store when a requeue is cut after the job left its held state. */
  function CutRequeue(db: Db, j: JobId, from: JobState): Db
    requires j in db.jobs
  {
    var freed := Resolve(db, db.Current(j));
    Either(Transition(freed, j, from, Retrying), freed)
  }

  lemma CutRequeueIs(db: Db, j: JobId, from: JobState)
    requires Sound(db) && db.In(j, from) && from in {Assigned, Running, Verifying}
    ensures CutRequeue(db, j, from).In(j, Retrying)
  {
    assert JobSound(db, j);
  }

  lemma RetryingIsNotRead(db: Db, j: JobId, order: seq<JobId>)
    requires db.In(j, Retrying)
    ensures j !in InStates(db, order, HELD_STATES) && j !in InStates(db, order, DISPATCHABLE_STATES)
  {
    InStatesMembers(db, order, HELD_STATES);
    InStatesMembers(db, order, DISPATCHABLE_STATES);
  }

  /** A requeue cut there strands the job: no pass, whatever it is shown, reads `Retrying` again. */
  lemma CutRequeueStrands(db: Db, j: JobId, from: JobState, order: seq<JobId>)
    requires Sound(db) && db.In(j, from) && from in {Assigned, Running, Verifying}
    ensures
      var e := CutRequeue(db, j, from);
      && e.In(j, Retrying)
      && j !in InStates(e, order, HELD_STATES) && j !in InStates(e, order, DISPATCHABLE_STATES)
  {
    CutRequeueIs(db, j, from);
    RetryingIsNotRead(CutRequeue(db, j, from), j, order);
  }
}
