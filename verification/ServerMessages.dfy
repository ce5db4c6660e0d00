/** What each message decides: the state a job is in after it, on the fields of the job's row and its intent. */
module ServerMessages {
  import opened Optional
  import opened Jobs
  import opened Capability
  import opened Capacity
  import opened Store
  import opened Server
  import opened ServerInvariant
  import opened ServerRuns
  import opened ServerGuarantees

  /** A live intent that this agent holds under this epoch. */
  predicate Holder(db: Db, i: IntentId, a: AgentId, epoch: nat) {
    i in db.intents && db.intents[i].live && db.intents[i].agent == a && db.intents[i].epoch == epoch
  }

  /** The store but for the state of one job. */
  predicate OnlyTheState(db: Db, e: Db, j: JobId) {
    j in db.jobs && j in e.jobs && e.jobs == db.jobs[j := db.jobs[j].(state := e.jobs[j].state)]
  }

  /** A job succeeds exactly if its install is reported as done, waits for an operator exactly if the report is
   *  that nobody knows, and fails exactly if the source was kept; the reservation is given up whatever the
   *  report, and a report from anybody but the holder is not heeded.
   */
  lemma ReportDecides(db: Db, a: AgentId, epoch: nat, i: IntentId, r: Report)
    ensures
      var e := ReportIn(db, a, epoch, i, r);
      if !Holder(db, i, a, epoch) then e == db
      else
        && e.intents == db.intents[i := db.intents[i].(live := false)]
        && if !db.In(i.job, Committing) then e.jobs == db.jobs
           else
             && OnlyTheState(db, e, i.job)
             && (e.In(i.job, Succeeded) <==> r == Installed)
             && (e.In(i.job, NeedsOperator) <==> r == Undecided)
             && (e.In(i.job, Failed) <==> r == SourceKept)
  {
  }

  /** A job may install exactly if it was verified and the asker holds a live intent of it under that epoch; it
   *  is `Committing` from then on, and nothing else changes.
   */
  lemma AskingDecides(db: Db, a: AgentId, epoch: nat, j: JobId)
    ensures
      var (e, granted) := CommitAsked(db, a, epoch, j);
      && (granted <==> db.In(j, Verifying) && exists i | i in db.intents :: i.job == j && Holder(db, i, a, epoch))
      && (if granted then e.In(j, Committing) && OnlyTheState(db, e, j) && e.intents == db.intents else e == db)
  {
    if IntentHeld(db, a, epoch, j) {
      var i :| i in db.intents && i.job == j && db.intents[i].live && db.intents[i].agent == a
        && db.intents[i].epoch == epoch;
      assert Holder(db, i, a, epoch);
    }
    if i :| i in db.intents && i.job == j && Holder(db, i, a, epoch) {
      assert IntentHeld(db, a, epoch, j);
    }
  }

  /** The row of a running job once its result is in. */
  function AfterResult(row: JobRow, passed: bool): JobRow {
    if passed then row.(state := Verifying)
    else if row.attempt + 1 < row.maxAttempts then row.(state := Eligible, attempt := row.attempt + 1)
    else row.(state := DeadLettered)
  }

  /** Nothing is heeded but the word of the job's agent under the job's epoch.  An output that passed is verified;
   *  one that did not costs the attempt, and the job is back in the queue or has no attempt left; and a result
   *  that comes when the job is past running moves it nowhere.
   */
  lemma ResultDecides(db: Db, a: AgentId, epoch: nat, j: JobId, passed: bool)
    ensures
      var heeded := j in db.jobs && db.jobs[j].agent == Some(a) && db.jobs[j].epoch == epoch;
      ResultIn(db, a, epoch, j, passed).jobs ==
        if heeded && db.jobs[j].state in {Assigned, Running} then db.jobs[j := AfterResult(db.jobs[j], passed)]
        else db.jobs
  {
    if Heeded(db, a, epoch, j) && db.jobs[j].state in {Assigned, Running} {
      var started := if db.jobs[j].state == Assigned then With(db, j, db.jobs[j].(state := Running)) else db;
      assert ResultIn(db, a, epoch, j, passed) == AfterRunning(started, j, passed);
      FailureIs(started, j);
    }
  }

  /** A heeded failure gives up the reservation of the attempt; nothing else is closed by any result. */
  lemma ResultCloses(db: Db, a: AgentId, epoch: nat, j: JobId, passed: bool)
    ensures
      var e := ResultIn(db, a, epoch, j, passed);
      var heeded := j in db.jobs && db.jobs[j].agent == Some(a) && db.jobs[j].epoch == epoch;
      && e.intents.Keys == db.intents.Keys
      && forall i | i in db.intents ::
           e.intents[i] == if heeded && !passed && i == IntentId(j, db.jobs[j].attempt)
                           then db.intents[i].(live := false) else db.intents[i]
  {
    if Heeded(db, a, epoch, j) {
      var started := if db.jobs[j].state == Assigned then Either(Transition(db, j, Assigned, Running), db) else db;
      assert started.intents == db.intents;
      assert ResultIn(db, a, epoch, j, passed).intents ==
        if passed then db.intents else Resolve(started, IntentId(j, db.jobs[j].attempt)).intents;
    }
  }

  /** An operator cancels exactly what has not ended and is not mid-commit, and what an agent holds only by force. */
  lemma CancellingDecides(db: Db, j: JobId, force: bool)
    ensures
      var e := CancelAsked(db, j, force);
      && e.intents == db.intents
      && if j in db.jobs
            && (db.jobs[j].state in {Pending, Blocked, Eligible, Retrying}
                || (force && db.jobs[j].state in {Assigned, Running, Verifying}))
         then e.jobs == db.jobs[j := db.jobs[j].(state := Cancelled)]
         else e == db
  {
  }

  /** A job is created exactly if its id is new and no job that has not ended is for its file; it waits, unassigned,
   *  on the first of three attempts.
   */
  lemma CreatingDecides(db: Db, j: JobId, path: Path, needs: Grant, reqs: seq<Requirement>)
    ensures
      var open := j in db.jobs || exists k | k in db.jobs && db.jobs[k].path == path ::
        db.jobs[k].state !in {Succeeded, Failed, Cancelled, DeadLettered, NeedsOperator};
      var row := JobRow(Pending, 0, 3, None, 0, path, needs, reqs, BucketKey(reqs));
      Create(db, j, path, needs, reqs) == if open then None else Some(Db(db.jobs[j := row], db.intents))
  {
  }

  // ---- Who makes a job succeed or fail

  /** What a job is once its install is reported as done, or as not done. */
  function After(installed: bool): JobState { if installed then Succeeded else Failed }

  /** The holder of a job that is committing says that it is installed, or that the source was kept. */
  predicate Says(db: Db, e: Event, j: JobId, installed: bool) {
    && e.CommitReport? && e.r == (if installed then Installed else SourceKept)
    && e.i.job == j && db.In(j, Committing) && Holder(db, e.i, e.a, e.epoch)
  }

  lemma ReportSettles(db: Db, a: AgentId, epoch: nat, i: IntentId, r: Report, j: JobId, installed: bool)
    requires !Settles(db, j)
    ensures ReportIn(db, a, epoch, i, r).In(j, After(installed)) <==>
      Says(db, CommitReport(a, epoch, i, r), j, installed)
  {
    ReportDecides(db, a, epoch, i, r);
  }

  lemma OthersSettleNothing(s: Server, e: Event, lim: AgentLimits, j: JobId)
    requires !e.Tick? && !e.CommitReport? && !Settles(s.db, j)
    ensures !Settles(Next(s, e, lim).db, j)
  {
    match e
    case Result(a, epoch, k, passed) => ResultDecides(s.db, a, epoch, k, passed);
    case CommitRequest(a, epoch, k) => AskingDecides(s.db, a, epoch, k);
    case Cancel(k, force) => CancellingDecides(s.db, k, force);
    case NewJob(_, _, _, _) =>
  }

  /** Of everything that happens to the server only that makes a job succeed or fail, and it always does. */
  lemma SettledExactlyWhenSaid(s: Server, e: Event, lim: AgentLimits, j: JobId, installed: bool)
    requires Sound(s.db) && Legal(s.db, e) && !Settles(s.db, j)
    ensures Next(s, e, lim).db.In(j, After(installed)) <==> Says(s.db, e, j, installed)
  {
    if e.Tick? {
      TickSettlesNothing(s, e.w, lim, j);
    } else if e.CommitReport? {
      ReportSettles(s.db, e.a, e.epoch, e.i, e.r, j, installed);
    } else {
      OthersSettleNothing(s, e, lim, j);
    }
  }

  lemma SettlementLasts(s: Server, e: Event, lim: AgentLimits, j: JobId)
    requires Settles(s.db, j)
    ensures j in Next(s, e, lim).db.jobs && Next(s, e, lim).db.jobs[j] == s.db.jobs[j]
  {
    NextIsLater(s, e, lim);
    assert RowLater(s.db.jobs[j], Next(s, e, lim).db.jobs[j]);
  }

  /** The run's nth event says so. */
  ghost predicate SaidAt(s: Server, es: seq<Event>, lim: AgentLimits, j: JobId, installed: bool, n: nat) {
    n < |es| && Says(Run(s, es[..n], lim).db, es[n], j, installed)
  }

  lemma SaidBefore(s: Server, es: seq<Event>, lim: AgentLimits, j: JobId, installed: bool, n: nat)
    requires n + 1 < |es|
    ensures SaidAt(s, es, lim, j, installed, n) <==> SaidAt(s, es[..|es| - 1], lim, j, installed, n)
  {
    assert es[..|es| - 1][..n] == es[..n];
  }

  lemma LastEventDecides(s: Server, es: seq<Event>, lim: AgentLimits, j: JobId, installed: bool)
    requires Sound(s.db) && AllLegal(s, es, lim) && es != []
    ensures Run(s, es, lim).db.In(j, After(installed)) <==>
      Run(s, es[..|es| - 1], lim).db.In(j, After(installed)) || SaidAt(s, es, lim, j, installed, |es| - 1)
  {
    var n := |es| - 1;
    LegalSoFar(s, es, lim);
    RunIsSound(s, es[..n], lim);
    var t := Run(s, es[..n], lim);
    if Settles(t.db, j) {
      SettlementLasts(t, es[n], lim, j);
    } else {
      SettledExactlyWhenSaid(t, es[n], lim, j, installed);
    }
  }

  /** In every run a job has succeeded exactly if its holder once said, while it was committing, that it was
   *  installed, and failed exactly if its holder once said that the source was kept.
   */
  lemma {:induction false} JobsAreSettledExactlyWhenSaid(
      s: Server, es: seq<Event>, lim: AgentLimits, j: JobId, installed: bool)
    requires Sound(s.db) && AllLegal(s, es, lim) && !Settles(s.db, j)
    ensures Run(s, es, lim).db.In(j, After(installed)) <==> exists n: nat :: SaidAt(s, es, lim, j, installed, n)
  {
    if es != [] {
      var most := es[..|es| - 1];
      LegalSoFar(s, es, lim);
      JobsAreSettledExactlyWhenSaid(s, most, lim, j, installed);
      LastEventDecides(s, es, lim, j, installed);
      forall n: nat | n + 1 < |es|
        ensures SaidAt(s, es, lim, j, installed, n) <==> SaidAt(s, most, lim, j, installed, n)
      {
        SaidBefore(s, es, lim, j, installed, n);
      }
    }
  }
}
