/** Runs of the server: passes of the dispatch loop, messages from agents, operators and new work, in
 *  any order.
 */
module ServerRuns {
  import opened Jobs
  import opened Capability
  import opened Capacity
  import opened Store
  import opened Server
  import opened ServerInvariant
  import opened ServerPass

  datatype Event =
    | Tick(w: World)
    | Result(a: AgentId, epoch: nat, j: JobId, passed: bool)
    | CommitRequest(a: AgentId, epoch: nat, j: JobId)
    | CommitReport(a: AgentId, epoch: nat, i: IntentId, r: Report)
    | Cancel(j: JobId, force: bool)
    | NewJob(j: JobId, path: Path, needs: Grant, reqs: seq<Requirement>)

  function Next(s: Server, e: Event, lim: AgentLimits): Server {
    match e
    case Tick(w) => Ticked(s, w, lim)
    case Result(a, epoch, j, passed) => s.(db := ResultIn(s.db, a, epoch, j, passed))
    case CommitRequest(a, epoch, j) => s.(db := CommitAsked(s.db, a, epoch, j).0)
    case CommitReport(a, epoch, i, r) => s.(db := ReportIn(s.db, a, epoch, i, r))
    case Cancel(j, force) => s.(db := CancelAsked(s.db, j, force))
    case NewJob(j, path, needs, reqs) => s.(db := Either(Create(s.db, j, path, needs, reqs), s.db))
  }

  /** A failed result that is heeded although its job has moved past `Running`. */
  predicate LateFailure(db: Db, a: AgentId, epoch: nat, j: JobId) {
    Heeded(db, a, epoch, j) && db.jobs[j].state in {Verifying, Committing, NeedsOperator}
  }

  /** A report on a job that was never given permission to install. */
  predicate EarlyReport(db: Db, a: AgentId, epoch: nat, i: IntentId) {
    && db.Live(i) && db.intents[i].agent == a && db.intents[i].epoch == epoch
    && i.job in db.jobs && db.jobs[i.job].state in {Assigned, Running, Verifying}
  }

  /** What the world is asked to keep to: the lists of a pass are complete, agents report failure before
   *  success, and report an install only after asking for it.
   */
  ghost predicate Legal(db: Db, e: Event) {
    match e
    case Tick(w) => Listed(db, w)
    case Result(a, epoch, j, passed) => passed || !LateFailure(db, a, epoch, j)
    case CommitReport(a, epoch, i, _) => !EarlyReport(db, a, epoch, i)
    case _ => true
  }

  function Run(s: Server, es: seq<Event>, lim: AgentLimits): Server {
    if es == [] then s else Next(Run(s, es[..|es| - 1], lim), es[|es| - 1], lim)
  }

  ghost predicate AllLegal(s: Server, es: seq<Event>, lim: AgentLimits) {
    forall i | 0 <= i < |es| :: Legal(Run(s, es[..i], lim).db, es[i])
  }

  // ---- A pass

  lemma PreparedIsSound(s: Server, w: World, lim: AgentLimits)
    requires Sound(s.db) && Listed(s.db, w)
    ensures Sound(Prepared(s, w, lim).db) && Tidy(Prepared(s, w, lim).db) && Listed(Prepared(s, w, lim).db, w)
  {
    ReconciledKeepsSound(s, w);
    ReconciledKeepsKeys(s, w);
    var r := Reconciled(s, w);
    SweptIsTidy(r.db, w.ages);
    SweptIs(r.db, LiveIntents(r.db, w.ages));
  }

  lemma {:induction false} ActionsKeepKeys(s: Server, acts: seq<Reconcile.Action>)
    ensures AppliedAll(s, acts).db.jobs.Keys == s.db.jobs.Keys
    ensures AppliedAll(s, acts).db.intents.Keys == s.db.intents.Keys
  {
    if acts != [] {
      ActionsKeepKeys(s, acts[..|acts| - 1]);
    }
  }

  lemma ReconciledKeepsKeys(s: Server, w: World)
    ensures Reconciled(s, w).db.jobs.Keys == s.db.jobs.Keys
    ensures Reconciled(s, w).db.intents.Keys == s.db.intents.Keys
  {
    var ids := InStates(s.db, w.order, HELD_STATES);
    InStatesMembers(s.db, w.order, HELD_STATES);
    ActionsKeepKeys(s, Reconcile.Verdicts(FlightsOf(s.db, ids, w), w.connected, w.now, Reconcile.LEASE_GRACE_SECONDS));
  }

  /** A pass keeps the store sound, and leaves a live intent only where it belongs. */
  lemma TickIsSoundAndTidy(s: Server, w: World, lim: AgentLimits)
    requires Sound(s.db) && Listed(s.db, w)
    ensures Sound(Ticked(s, w, lim).db) && Tidy(Ticked(s, w, lim).db)
  {
    PreparedIsSound(s, w, lim);
    var p := Prepared(s, w, lim);
    if w.fleet != [] && !w.paused {
      RoundPlacesOnce(p, w);
      PlacedAllIsSound(Server(p.db, RoundLedger(p, w)), RoundOf(p, w), w.sites);
    }
  }

  // ---- Messages

  lemma ResultIsSound(db: Db, a: AgentId, epoch: nat, j: JobId, passed: bool)
    requires Sound(db) && (passed || !LateFailure(db, a, epoch, j))
    ensures Sound(ResultIn(db, a, epoch, j, passed))
  {
    if Heeded(db, a, epoch, j) {
      if db.jobs[j].state == Assigned { MoveIsSound(db, j, Running); }
      var started := if db.jobs[j].state == Assigned then With(db, j, db.jobs[j].(state := Running)) else db;
      if db.jobs[j].state in {Assigned, Running} {
        assert ResultIn(db, a, epoch, j, passed) == AfterRunning(started, j, passed);
        AfterRunningIsSound(started, j, passed);
      } else if !passed {
        assert ResultIn(db, a, epoch, j, passed) == Resolve(db, db.Current(j));
        ResolveIsSound(db, db.Current(j));
      }
    }
  }

  /** What a result does to a job that is running. */
  function AfterRunning(db: Db, j: JobId, passed: bool): Db
    requires j in db.jobs
  {
    if passed then Either(Transition(db, j, Running, Verifying), db)
    else
      var freed := Resolve(db, db.Current(j));
      match Transition(freed, j, Running, Retrying)
      case None => freed
      case Some(t) => Either(Retried(t, j, db.jobs[j].attempt, db.jobs[j].maxAttempts), t)
  }

  lemma AfterRunningIsSound(db: Db, j: JobId, passed: bool)
    requires Sound(db) && db.In(j, Running)
    ensures Sound(AfterRunning(db, j, passed))
  {
    if passed {
      MoveIsSound(db, j, Verifying);
    } else {
      FailureIs(db, j);
      assert JobSound(db, j);
      BackInQueueIsSound(db, AfterRunning(db, j, passed), j);
      OneJobAtATime(db, AfterRunning(db, j, passed), j);
    }
  }

  lemma FailureIs(db: Db, j: JobId)
    requires db.In(j, Running)
    ensures
      var freed := Resolve(db, db.Current(j));
      var t := Transition(freed, j, Running, Retrying);
      t.Some? && Either(Retried(t.value, j, db.jobs[j].attempt, db.jobs[j].maxAttempts), t.value)
        == Db(db.jobs[j := BackInQueue(db.jobs[j])], freed.intents)
  {
    RequeuedIs(db, j, Running);
    var t := Transition(Resolve(db, db.Current(j)), j, Running, Retrying).value;
    RetriedIs(t, j, db.jobs[j].attempt, db.jobs[j].maxAttempts);
  }

  lemma CommitAskedIsSound(db: Db, a: AgentId, epoch: nat, j: JobId)
    requires Sound(db)
    ensures Sound(CommitAsked(db, a, epoch, j).0)
  {
    if db.In(j, Verifying) { MoveIsSound(db, j, Committing); }
  }

  lemma ReportOnCommitIsSound(db: Db, a: AgentId, epoch: nat, i: IntentId, r: Report)
    requires Sound(db) && db.In(i.job, Committing)
    requires db.Live(i) && db.intents[i].agent == a && db.intents[i].epoch == epoch
    ensures Sound(ReportIn(db, a, epoch, i, r))
  {
    var j := i.job;
    MoveIsSound(db, j, OutcomeOf(r));
    var moved := With(db, j, db.jobs[j].(state := OutcomeOf(r)));
    ResolveIsSound(moved, i);
    assert ReportIn(db, a, epoch, i, r) == Resolve(moved, i);
  }

  lemma ReportIsSound(db: Db, a: AgentId, epoch: nat, i: IntentId, r: Report)
    requires Sound(db) && !EarlyReport(db, a, epoch, i)
    ensures Sound(ReportIn(db, a, epoch, i, r))
  {
    if db.Live(i) && db.intents[i].agent == a && db.intents[i].epoch == epoch {
      if db.In(i.job, Committing) {
        ReportOnCommitIsSound(db, a, epoch, i, r);
      } else {
        ResolveIsSound(db, i);
      }
    }
  }

  lemma CancelIsSound(db: Db, j: JobId, force: bool)
    requires Sound(db)
    ensures Sound(CancelAsked(db, j, force))
  {
    if j in db.jobs && CanTransition(db.jobs[j].state, Cancelled) { MoveIsSound(db, j, Cancelled); }
  }

  lemma CreateIsSound(db: Db, j: JobId, path: Path, needs: Grant, reqs: seq<Requirement>)
    requires Sound(db)
    ensures Sound(Either(Create(db, j, path, needs, reqs), db))
  {
    var e := Either(Create(db, j, path, needs, reqs), db);
    if e != db {
      forall k | k in e.jobs ensures JobSound(e, k) {
        if k == j { assert forall i | i in db.intents :: i.job != j; } else { OthersStaySound(db, e, j, k); }
      }
    }
  }

  lemma NextIsSound(s: Server, e: Event, lim: AgentLimits)
    requires Sound(s.db) && Legal(s.db, e)
    ensures Sound(Next(s, e, lim).db)
  {
    match e
    case Tick(w) => TickIsSoundAndTidy(s, w, lim);
    case Result(a, epoch, j, passed) => ResultIsSound(s.db, a, epoch, j, passed);
    case CommitRequest(a, epoch, j) => CommitAskedIsSound(s.db, a, epoch, j);
    case CommitReport(a, epoch, i, r) => ReportIsSound(s.db, a, epoch, i, r);
    case Cancel(j, force) => CancelIsSound(s.db, j, force);
    case NewJob(j, path, needs, reqs) => CreateIsSound(s.db, j, path, needs, reqs);
  }

  lemma LegalSoFar(s: Server, es: seq<Event>, lim: AgentLimits)
    requires AllLegal(s, es, lim) && es != []
    ensures AllLegal(s, es[..|es| - 1], lim)
    ensures Legal(Run(s, es[..|es| - 1], lim).db, es[|es| - 1])
  {
    var most := es[..|es| - 1];
    forall k | 0 <= k < |most| ensures Legal(Run(s, most[..k], lim).db, most[k]) {
      assert most[..k] == es[..k] && most[k] == es[k];
    }
  }

  /** In every run of legal events the table and the ledger agree: every held job has a live intent, no
   *  destination has two, and no job has spent more attempts than it may.
   */
  lemma {:induction false} RunIsSound(s: Server, es: seq<Event>, lim: AgentLimits)
    requires Sound(s.db) && AllLegal(s, es, lim)
    ensures Sound(Run(s, es, lim).db)
  {
    if es != [] {
      var n := |es| - 1;
      LegalSoFar(s, es, lim);
      RunIsSound(s, es[..n], lim);
      NextIsSound(Run(s, es[..n], lim), es[n], lim);
    }
  }

  /** Where a run that ends in a pass leaves its live intents. */
  lemma RunEndsTidy(s: Server, es: seq<Event>, lim: AgentLimits)
    requires Sound(s.db) && AllLegal(s, es, lim) && es != [] && es[|es| - 1].Tick?
    ensures Tidy(Run(s, es, lim).db)
  {
    var n := |es| - 1;
    LegalSoFar(s, es, lim);
    RunIsSound(s, es[..n], lim);
    TickIsSoundAndTidy(Run(s, es[..n], lim), es[n].w, lim);
  }

  // ---- What the conditions are worth

  /** Of the results heeded, exactly the failures of jobs past `Running` break the agreement. */
  lemma ResultKeepsSoundExactlyWhen(db: Db, a: AgentId, epoch: nat, j: JobId, passed: bool)
    requires Sound(db)
    ensures Sound(ResultIn(db, a, epoch, j, passed)) <==>
      passed || !Heeded(db, a, epoch, j) || db.jobs[j].state !in {Verifying, Committing}
  {
    if !passed && Heeded(db, a, epoch, j) {
      assert JobSound(db, j);
      if db.jobs[j].state in {Verifying, Committing} {
        var e := ResultIn(db, a, epoch, j, false);
        assert e == Resolve(db, db.Current(j));
        assert !JobSound(e, j);
      } else if db.jobs[j].state == NeedsOperator {
        ResolveIsSound(db, db.Current(j));
      } else {
        ResultIsSound(db, a, epoch, j, passed);
      }
    } else {
      ResultIsSound(db, a, epoch, j, passed);
    }
  }

  /** Of the reports heeded, exactly those on jobs not yet allowed to install do. */
  lemma ReportKeepsSoundExactlyWhen(db: Db, a: AgentId, epoch: nat, i: IntentId, r: Report)
    requires Sound(db)
    ensures Sound(ReportIn(db, a, epoch, i, r)) <==> !EarlyReport(db, a, epoch, i)
  {
    if EarlyReport(db, a, epoch, i) {
      var e := ReportIn(db, a, epoch, i, r);
      assert JobSound(db, i.job) && e == Resolve(db, i);
      assert !JobSound(e, i.job);
    } else {
      ReportIsSound(db, a, epoch, i, r);
    }
  }
}
