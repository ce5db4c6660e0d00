/** What the job table and the intent ledger agree on, and that every write of a pass keeps it. */
module ServerInvariant {
  import opened Optional
  import opened Jobs
  import opened Store
  import opened Server

  /** The ledger's rows for one job fit the job's own row. */
  ghost predicate IntentsFit(db: Db, j: JobId)
    requires j in db.jobs
  {
    forall i | i in db.intents && i.job == j ::
      && i.attempt <= db.jobs[j].attempt
      && db.intents[i].path == db.jobs[j].path
      && (i.attempt == db.jobs[j].attempt ==> !db.jobs[j].state.IsQueued())
      && (db.intents[i].live ==> i.attempt == db.jobs[j].attempt)
  }

  /** A held job has a live intent, for the agent and the epoch that hold it. */
  ghost predicate Reserved(db: Db, j: JobId)
    requires j in db.jobs
  {
    var row := db.jobs[j];
    row.state.HoldsCapacity() ==>
      && db.Live(db.Current(j))
      && row.agent == Some(db.intents[db.Current(j)].agent)
      && row.epoch == db.intents[db.Current(j)].epoch
  }

  /** No job is left between two writes, and none is on an attempt it has no budget for. */
  predicate Settled(row: JobRow) {
    row.state != Retrying && (row.attempt == 0 || row.attempt < row.maxAttempts)
  }

  ghost predicate JobSound(db: Db, j: JobId)
    requires j in db.jobs
  {
    Settled(db.jobs[j]) && IntentsFit(db, j) && Reserved(db, j)
  }

  ghost predicate OneIntentPerPath(db: Db) {
    forall i, k | db.Live(i) && db.Live(k) && db.intents[i].path == db.intents[k].path :: i == k
  }

  ghost predicate OneOpenJobPerPath(db: Db) {
    forall j, k | j in db.jobs && k in db.jobs && db.jobs[j].path == db.jobs[k].path
      && !db.jobs[j].state.IsTerminal() && !db.jobs[k].state.IsTerminal() :: j == k
  }

  ghost predicate Sound(db: Db) {
    && (forall i | i in db.intents :: i.job in db.jobs)
    && (forall j | j in db.jobs :: JobSound(db, j))
    && OneIntentPerPath(db)
    && OneOpenJobPerPath(db)
  }

  /** Two stores that differ in one job and its intents at most. */
  ghost predicate OnlyAt(db: Db, e: Db, j: JobId) {
    && (forall k | k != j :: k in db.jobs <==> k in e.jobs)
    && (forall k | k != j && k in db.jobs :: e.jobs[k] == db.jobs[k])
    && (forall i: IntentId | i.job != j :: i in db.intents <==> i in e.intents)
    && (forall i: IntentId | i.job != j && i in db.intents :: e.intents[i] == db.intents[i])
  }

  /** A change to one job that keeps its path, opens no closed job, and reserves no taken path. */
  lemma OneJobAtATime(db: Db, e: Db, j: JobId)
    requires Sound(db) && OnlyAt(db, e, j) && j in db.jobs && j in e.jobs && JobSound(e, j)
    requires e.jobs[j].path == db.jobs[j].path
    requires db.jobs[j].state.IsTerminal() ==> e.jobs[j].state.IsTerminal()
    requires forall i: IntentId | i.job == j && e.Live(i) :: db.Live(i) || !db.PathTaken(db.jobs[j].path)
    ensures Sound(e)
  {
    JobsStaySound(db, e, j);
    OneOpenJobStays(db, e, j);
    forall i, k | e.Live(i) && e.Live(k) && e.intents[i].path == e.intents[k].path ensures i == k {
      OnePathOneIntent(db, e, j, i, k);
    }
  }

  lemma JobsStaySound(db: Db, e: Db, j: JobId)
    requires OnlyAt(db, e, j) && j in e.jobs && JobSound(e, j)
    requires forall k | k in db.jobs :: JobSound(db, k)
    ensures forall k | k in e.jobs :: JobSound(e, k)
  {
    forall k | k in e.jobs ensures JobSound(e, k) {
      if k != j { OthersStaySound(db, e, j, k); }
    }
  }

  lemma OneOpenJobStays(db: Db, e: Db, j: JobId)
    requires OneOpenJobPerPath(db) && OnlyAt(db, e, j) && j in db.jobs && j in e.jobs
    requires e.jobs[j].path == db.jobs[j].path
    requires db.jobs[j].state.IsTerminal() ==> e.jobs[j].state.IsTerminal()
    ensures OneOpenJobPerPath(e)
  {
  }

  lemma OthersStaySound(db: Db, e: Db, j: JobId, k: JobId)
    requires OnlyAt(db, e, j) && k != j && k in db.jobs && JobSound(db, k)
    ensures k in e.jobs && JobSound(e, k)
  {
  }

  lemma OnePathOneIntent(db: Db, e: Db, j: JobId, i: IntentId, k: IntentId)
    requires Sound(db) && OnlyAt(db, e, j) && j in db.jobs && j in e.jobs && JobSound(e, j)
    requires e.jobs[j].path == db.jobs[j].path
    requires forall i: IntentId | i.job == j && e.Live(i) :: db.Live(i) || !db.PathTaken(db.jobs[j].path)
    requires e.Live(i) && e.Live(k) && e.intents[i].path == e.intents[k].path
    ensures i == k
  {
    if i.job == j && k.job == j {
      assert i.attempt == e.jobs[j].attempt == k.attempt;
    } else if i.job == j {
      assert db.Live(k) && db.intents[k].path == db.jobs[j].path;
      assert JobSound(db, j);
    } else if k.job == j {
      assert db.Live(i) && db.intents[i].path == db.jobs[j].path;
      assert JobSound(db, j);
    } else {
      assert db.Live(i) && db.Live(k);
    }
  }

  // ---- Returning a job to the queue

  /** The row a job has once it is back in the queue, or given up on. */
  function BackInQueue(row: JobRow): JobRow {
    if row.attempt + 1 >= row.maxAttempts then row.(state := DeadLettered)
    else row.(state := Eligible, attempt := row.attempt + 1)
  }

  /** From any held state but `Committing` this works; the reservation is gone and nothing else is. */
  lemma RequeuedIs(db: Db, j: JobId, from: JobState)
    requires db.In(j, from) && from in {Assigned, Running, Verifying}
    ensures Requeued(db, j, from) ==
      (Db(db.jobs[j := BackInQueue(db.jobs[j])], Resolve(db, db.Current(j)).intents), true)
  {
    var row := db.jobs[j];
    var t := With(Resolve(db, db.Current(j)), j, row.(state := Retrying));
    assert Transition(Resolve(db, db.Current(j)), j, from, Retrying) == Some(t);
    RetriedIs(t, j, row.attempt, row.maxAttempts);
    assert t.jobs[j := BackInQueue(t.jobs[j])] == db.jobs[j := BackInQueue(row)];
  }

  lemma RetriedIs(t: Db, j: JobId, attempt: nat, maxAttempts: nat)
    requires t.In(j, Retrying) && t.jobs[j].attempt == attempt && t.jobs[j].maxAttempts == maxAttempts
    ensures Retried(t, j, attempt, maxAttempts) == Some(With(t, j, BackInQueue(t.jobs[j])))
  {
    if attempt + 1 < maxAttempts {
      var b := BumpAttempt(t, j);
      var e := With(b, j, b.jobs[j].(state := Eligible));
      assert Transition(b, j, Retrying, Eligible) == Some(e);
      assert e.jobs == With(t, j, BackInQueue(t.jobs[j])).jobs;
    } else {
      assert Transition(t, j, Retrying, DeadLettered) == Some(With(t, j, t.jobs[j].(state := DeadLettered)));
    }
  }

  lemma BackInQueueIsSound(db: Db, e: Db, j: JobId)
    requires j in db.jobs && JobSound(db, j) && db.jobs[j].state.HoldsCapacity()
    requires e == Db(db.jobs[j := BackInQueue(db.jobs[j])], Resolve(db, db.Current(j)).intents)
    ensures JobSound(e, j) && OnlyAt(db, e, j) && !HasLive(e, j)
  {
  }

  lemma RequeuedIsSound(db: Db, j: JobId, from: JobState)
    requires Sound(db) && db.In(j, from) && from in {Assigned, Running, Verifying}
    ensures Sound(Requeued(db, j, from).0)
  {
    RequeuedIs(db, j, from);
    var e := Requeued(db, j, from).0;
    BackInQueueIsSound(db, e, j);
    OneJobAtATime(db, e, j);
  }

  // ---- Moving a job without touching its intents

  /** An edge from the current state that does not return to the queue, and takes no slot. */
  lemma MoveIsSound(db: Db, j: JobId, to: JobState)
    requires Sound(db) && j in db.jobs && CanTransition(db.jobs[j].state, to)
    requires to != Retrying && (to.HoldsCapacity() ==> db.jobs[j].state.HoldsCapacity())
    requires to.IsQueued() ==> db.jobs[j].state.IsQueued()
    ensures Transition(db, j, db.jobs[j].state, to) == Some(With(db, j, db.jobs[j].(state := to)))
    ensures Sound(With(db, j, db.jobs[j].(state := to)))
  {
    var e := With(db, j, db.jobs[j].(state := to));
    assert JobSound(db, j);
    assert JobSound(e, j);
    OneJobAtATime(db, e, j);
  }

  /** Closing the intent of a job that holds nothing. */
  lemma ResolveIsSound(db: Db, i: IntentId)
    requires Sound(db) && (i.job in db.jobs ==> !db.jobs[i.job].state.HoldsCapacity())
    ensures Sound(Resolve(db, i))
  {
    if db.Live(i) {
      var e := Resolve(db, i);
      assert JobSound(db, i.job);
      assert JobSound(e, i.job);
      OneJobAtATime(db, e, i.job);
    }
  }

  // ---- Placing

  /** Fit to be handed out, and as it was when the round was decided. */
  ghost predicate Waiting(db: Db, j: JobId, seen: JobRow) {
    j in db.jobs && db.jobs[j] == seen && seen.state in {Pending, Eligible}
  }

  /** The row and the intent a placement that works leaves behind. */
  function HandedOver(db: Db, j: JobId, a: AgentId, epoch: nat): Db
    requires j in db.jobs
  {
    Db(db.jobs[j := db.jobs[j].(state := Assigned, agent := Some(a), epoch := epoch)],
       db.intents[db.Current(j) := IntentRow(a, epoch, db.jobs[j].path, true)])
  }

  /** A placement does one of three things: nothing, the whole handover, or the handover undone as a
   *  failed attempt.  It does nothing only when the world was not ready, or the destination is reserved;
   *  the intent id it would use is one that was never used.
   */
  lemma PlacedOnIs(db: Db, j: JobId, seen: JobRow, a: AgentId, site: Site)
    requires Sound(db) && Waiting(db, j, seen)
    ensures db.Current(j) !in db.intents
    ensures
      var (e, ok) := PlacedOn(db, j, seen, a, site);
      if !site.ready || site.epoch.None? || db.PathTaken(seen.path) then e == db && !ok
      else if site.delivered then e == HandedOver(db, j, a, site.epoch.value) && ok
      else
        var h := HandedOver(db, j, a, site.epoch.value);
        !ok && e == Db(h.jobs[j := BackInQueue(h.jobs[j])], Resolve(h, h.Current(j)).intents)
  {
    assert JobSound(db, j);
    assert db.Current(j) !in db.intents;
    if site.ready && site.epoch.Some? && !db.PathTaken(seen.path) {
      var granted := db.(intents := db.intents[db.Current(j) := IntentRow(a, site.epoch.value, seen.path, true)]);
      assert GrantIntent(db, IntentId(j, seen.attempt), a, site.epoch.value, seen.path) == Some(granted);
      var ready := With(granted, j, seen.(state := Eligible));
      assert seen.state == Pending ==> Transition(granted, j, Pending, Eligible) == Some(ready);
      assert seen.state == Eligible ==> ready == granted;
      var h := HandedOver(db, j, a, site.epoch.value);
      assert Assign(ready, j, a, site.epoch.value).value == h;
      RequeuedIs(h, j, Assigned);
    }
  }

  lemma HandedOverIsSound(db: Db, j: JobId, a: AgentId, epoch: nat)
    requires Sound(db) && j in db.jobs && db.jobs[j].state in {Pending, Eligible}
    requires !db.PathTaken(db.jobs[j].path)
    ensures Sound(HandedOver(db, j, a, epoch)) && OnlyAt(db, HandedOver(db, j, a, epoch), j)
  {
    var e := HandedOver(db, j, a, epoch);
    assert JobSound(db, j);
    assert JobSound(e, j);
    OneJobAtATime(db, e, j);
  }

  lemma PlacedOnIsSound(db: Db, j: JobId, seen: JobRow, a: AgentId, site: Site)
    requires Sound(db) && Waiting(db, j, seen)
    ensures Sound(PlacedOn(db, j, seen, a, site).0) && OnlyAt(db, PlacedOn(db, j, seen, a, site).0, j)
  {
    PlacedOnIs(db, j, seen, a, site);
    if site.ready && site.epoch.Some? && !db.PathTaken(seen.path) {
      HandedOverIsSound(db, j, a, site.epoch.value);
      if !site.delivered {
        var h := HandedOver(db, j, a, site.epoch.value);
        var e := PlacedOn(db, j, seen, a, site).0;
        BackInQueueIsSound(h, e, j);
        OneJobAtATime(h, e, j);
      }
    }
  }
}
