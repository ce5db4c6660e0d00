/** The dispatch loop as it runs: it reads rows, submits guarded writes one by one, and keeps a ledger
 *  and a dispatcher between passes.  A pass does to the store and the ledger what `Ticked` says.
 */
module Orchestrator {
  import opened Optional
  import opened Jobs
  import opened Capability
  import opened Capacity
  import opened Store
  import opened Dispatch
  import opened Server
  import opened ServerPass
  import opened ServerRuns
  import opened ServerGuarantees

  /** Every stored key is the key of the stored requirements. */
  ghost predicate AllKeyed(db: Db) {
    forall j | j in db.jobs :: db.jobs[j].bucketKey == BucketKey(db.jobs[j].requirements)
  }

  lemma HandedToKeepsJobs(db: Db, j: JobId, seen: JobRow, a: AgentId, epoch: nat, delivered: bool)
    ensures HandedTo(db, j, seen, a, epoch, delivered).0.jobs.Keys == db.jobs.Keys
  {
    var ready := if seen.state == Pending then Transition(db, j, Pending, Eligible) else Some(db);
    if ready.Some? {
      assert ready.value.jobs.Keys == db.jobs.Keys;
      var handed := Assign(ready.value, j, a, epoch);
      if handed.Some? {
        assert handed.value.jobs.Keys == db.jobs.Keys;
        RequeuedKeepsJobs(handed.value, j, Assigned);
      }
    }
  }

  lemma PlacedOnKeepsJobs(db: Db, j: JobId, seen: JobRow, a: AgentId, site: Site)
    ensures PlacedOn(db, j, seen, a, site).0.jobs.Keys == db.jobs.Keys
  {
    if site.ready && site.epoch.Some? {
      var granted := GrantIntent(db, IntentId(j, seen.attempt), a, site.epoch.value, seen.path);
      if granted.Some? { HandedToKeepsJobs(granted.value, j, seen, a, site.epoch.value, site.delivered); }
    }
  }

  lemma RequeuedKeepsJobs(db: Db, j: JobId, from: JobState)
    ensures Requeued(db, j, from).0.jobs.Keys == db.jobs.Keys
  {
  }

  lemma {:induction false} PlacedAllKeepsJobs(s: Server, seen: Db, os: seq<Outcome>, sites: JobId -> Site)
    requires forall o | o in os :: o.Placed? && o.job in seen.jobs
    ensures PlacedAll(s, seen, os, sites).db.jobs.Keys == s.db.jobs.Keys
  {
    if os != [] {
      var n := |os| - 1;
      PlacedAllKeepsJobs(s, seen, os[..n], sites);
      var m := PlacedAll(s, seen, os[..n], sites);
      PlacedOnKeepsJobs(m.db, os[n].job, seen.jobs[os[n].job], os[n].agent, sites(os[n].job));
    }
  }

  lemma PreparedKeepsKeyed(s: Server, w: World, lim: AgentLimits)
    requires AllKeyed(s.db)
    ensures AllKeyed(Prepared(s, w, lim).db) && Prepared(s, w, lim).db.jobs.Keys == s.db.jobs.Keys
  {
    ReconciledKeepsKeys(s, w);
    SweptIs(Reconciled(s, w).db, LiveIntents(Reconciled(s, w).db, w.ages));
    PreparedIsLater(s, w, lim);
  }

  lemma TickKeepsKeyed(s: Server, w: World, lim: AgentLimits)
    requires AllKeyed(s.db)
    ensures AllKeyed(Ticked(s, w, lim).db)
  {
    PreparedKeepsKeyed(s, w, lim);
    var p := Prepared(s, w, lim);
    PlacedAllKeepsJobs(Server(p.db, RoundLedger(p, w)), p.db, RoundOf(p, w), w.sites);
    TickIsLater(s, w, lim);
  }

  lemma ReleasedKeepsHolders(l: Ledger, j: JobId)
    requires OneHolderEach(l)
    ensures OneHolderEach(Released(l, j))
    ensures Released(Released(l, j), j) == Released(l, j)
  {
    var m := Released(l, j);
    forall a | a in m.held ensures m.held[a] - {j} == m.held[a] {
    }
    assert Released(m, j).held == m.held;
  }

  class Orchestrator {
    var db: Db
    const ledger: CapacityLedger
    const dispatcher: Dispatcher
    const limits: AgentLimits

    constructor (store: Db, lim: AgentLimits)
      ensures Valid() && Now() == Server(store, Ledger(map[], map[])) && limits == lim
      ensures fresh(ledger) && fresh(dispatcher)
    {
      db, limits := store, lim;
      ledger := new CapacityLedger();
      dispatcher := new Dispatcher();
    }

    ghost function Now(): Server
      reads this, ledger
    {
      Server(db, ledger.Now())
    }

    ghost predicate Valid()
      reads this, ledger, dispatcher
    {
      OneHolderEach(ledger.Now()) && dispatcher.Valid()
    }

    /** Return one job to the queue, or stop retrying it. */
    method Requeue(j: JobId, from: JobState) returns (ok: bool)
      requires OneHolderEach(ledger.Now())
      modifies this`db, ledger`held
      ensures OneHolderEach(ledger.Now())
      ensures (db, ok) == Requeued(old(db), j, from)
      ensures ledger.Now() == if ok then Released(old(ledger.Now()), j) else old(ledger.Now())
    {
      ReleasedKeepsHolders(ledger.Now(), j);
      if j !in db.jobs { return false; }
      var row := db.jobs[j];
      db := Resolve(db, IntentId(j, row.attempt));
      var left := Transition(db, j, from, Retrying);
      if left.None? { return false; }
      db := left.value;
      var to := DeadLettered;
      match Hardening.DecideRetry(Hardening.Transient, row.attempt, row.maxAttempts) {
        case RetryAfter(_, _) =>
          to := Eligible;
        case DeadLetter =>
        case Stop =>
          to := Failed;
      }
      ghost var retrying := db;
      if to == Eligible { db := BumpAttempt(db, j); }
      var back := Transition(db, j, Retrying, to);
      assert back == Retried(retrying, j, row.attempt, row.maxAttempts) && back.Some?;
      db := back.value;
      var _ := ledger.Release(j);
      return true;
    }

    /** Hand one job to one agent. */
    method Place(j: JobId, seen: JobRow, a: AgentId, site: Site) returns (ok: bool)
      requires OneHolderEach(ledger.Now())
      modifies this`db, ledger`held
      ensures OneHolderEach(ledger.Now())
      ensures (db, ok) == PlacedOn(old(db), j, seen, a, site)
      ensures ledger.Now() == old(ledger.Now()) || (!ok && ledger.Now() == Released(old(ledger.Now()), j))
    {
      if !site.ready || site.epoch.None? { return false; }
      var granted := GrantIntent(db, IntentId(j, seen.attempt), a, site.epoch.value, seen.path);
      if granted.None? { return false; }
      db := granted.value;
      if seen.state == Pending {
        var ready := Transition(db, j, Pending, Eligible);
        if ready.None? { return false; }
        db := ready.value;
      }
      var handed := Assign(db, j, a, site.epoch.value);
      if handed.None? { return false; }
      db := handed.value;
      if !site.delivered {
        var _ := Requeue(j, Assigned);
        return false;
      }
      return true;
    }

    /** Carry out the verdicts, one after another. */
    method Apply(actions: seq<Reconcile.Action>)
      requires OneHolderEach(ledger.Now())
      modifies this`db, ledger`held
      ensures OneHolderEach(ledger.Now()) && Now() == AppliedAll(old(Now()), actions)
    {
      ghost var s := Now();
      var i := 0;
      while i < |actions|
        invariant 0 <= i <= |actions|
        invariant OneHolderEach(ledger.Now())
        invariant Now() == AppliedAll(s, actions[..i])
      {
        assert actions[..i + 1][..i] == actions[..i];
        ReleasedKeepsHolders(ledger.Now(), actions[i].job);
        match actions[i] {
          case Requeue(j, from) =>
            var _ := Requeue(j, from);
          case Escalate(j) =>
            var asked := Transition(db, j, Committing, NeedsOperator);
            if asked.Some? { db := asked.value; }
          case ReleaseCapacity(j) =>
            var _ := ledger.Release(j);
        }
        i := i + 1;
      }
      assert actions[..i] == actions;
    }

    /** Decide what to do about work whose agent has gone quiet. */
    method ReconcileSilence(w: World)
      requires Valid()
      modifies this`db, ledger`held
      ensures Valid() && Now() == Reconciled(old(Now()), w)
    {
      var ids := InStates(db, w.order, HELD_STATES);
      InStatesMembers(db, w.order, HELD_STATES);
      var flat := FlightsOf(db, ids, w);
      var actions := Reconcile.Reconcile(flat, w.connected, w.now, Reconcile.LEASE_GRACE_SECONDS);
      Apply(actions);
    }

    /** Free destinations reserved by intents nothing will ever resolve. */
    method SweepStrandedIntents(ages: seq<IntentId>)
      modifies this`db
      ensures db == Swept(old(db), LiveIntents(old(db), ages))
    {
      var live := LiveIntents(db, ages);
      var i := 0;
      while i < |live|
        invariant 0 <= i <= |live| && db == Swept(old(db), live[..i])
      {
        assert live[..i + 1][..i] == live[..i];
        var intent := live[i];
        i := i + 1;
        if intent.job in db.jobs && db.jobs[intent.job].state == NeedsOperator { continue; }
        if intent.job in db.jobs && !db.jobs[intent.job].state.IsTerminal() { continue; }
        db := Resolve(db, intent);
      }
      assert live[..i] == live;
    }

    /** Rebuild the ledger from what the database says is in flight. */
    method RebuildCapacity(order: seq<JobId>, fleet: seq<AgentEntry>)
      modifies ledger
      ensures ledger.Now() == Rebuilt(old(ledger.Now()), db, order, fleet, limits)
      ensures OneHolderEach(ledger.Now())
    {
      var ids := InStates(db, order, HELD_STATES);
      InStatesMembers(db, order, HELD_STATES);
      var rows := RowsOf(db, ids);
      ghost var l := ledger.Now();
      var i := 0;
      while i < |fleet|
        invariant 0 <= i <= |fleet| && ledger.Now() == AllLimited(l, fleet[..i], limits)
      {
        assert fleet[..i + 1][..i] == fleet[..i];
        ledger.SetLimits(fleet[i].id, limits);
        i := i + 1;
      }
      assert fleet[..i] == fleet;
      RowsAre(db, ids);
      ReplayHoldsOnce(Emptied(ledger.Now()), rows);
      var _ := ledger.Rebuild(rows);
    }

    /** Carry out the placements of a round; the permit of each one that fails is handed back. */
    method CarryOut(seen: Db, assignments: seq<Outcome>, sites: JobId -> Site)
      requires OneHolderEach(ledger.Now())
      requires forall o | o in assignments :: o.Placed? && o.job in seen.jobs
      modifies this`db, ledger`held
      ensures OneHolderEach(ledger.Now())
      ensures Now() == PlacedAll(old(Now()), seen, assignments, sites)
    {
      ghost var s := Now();
      var i := 0;
      while i < |assignments|
        invariant 0 <= i <= |assignments| && OneHolderEach(ledger.Now())
        invariant Now() == PlacedAll(s, seen, assignments[..i], sites)
      {
        assert assignments[..i + 1][..i] == assignments[..i];
        var o := assignments[i];
        assert o in assignments;
        ReleasedKeepsHolders(ledger.Now(), o.job);
        var ok := Place(o.job, seen.jobs[o.job], o.agent, sites(o.job));
        if !ok { var _ := ledger.Release(o.job); }
        i := i + 1;
      }
      assert assignments[..i] == assignments;
    }

    /** One pass: reconcile, then dispatch. */
    method Tick(w: World)
      requires Valid() && Distinct(w.fleet) && AllKeyed(db)
      modifies this, ledger, dispatcher
      ensures Valid() && AllKeyed(db)
      ensures Now() == Ticked(old(Now()), w, limits)
    {
      ghost var s := Now();
      TickKeepsKeyed(s, w, limits);
      ReconcileSilence(w);
      SweepStrandedIntents(w.ages);
      PreparedKeepsKeyed(s, w, limits);
      if w.fleet == [] { return; }
      RebuildCapacity(w.order, w.fleet);
      ghost var p := Now();
      assert p == Prepared(s, w, limits);
      if w.paused { return; }
      var pending := InStates(db, w.order, DISPATCHABLE_STATES);
      InStatesMembers(db, w.order, DISPATCHABLE_STATES);
      if pending == [] { return; }
      var queued := QueuedOf(db, pending, w.legible);
      QueuedMembers(db, pending, w.legible);
      dispatcher.SetAgents(w.fleet);
      var assignments, _ := dispatcher.Dispatch(queued, ledger);
      RoundKeepsLimits(w.fleet, queued, p.ledger);
      RoundKeepsHolders(w.fleet, queued, p.ledger);
      assert assignments == RoundOf(p, w);
      CarryOut(db, assignments, w.sites);
    }
  }

  lemma {:induction false} RoundKeepsHolders(agents: seq<AgentEntry>, jobs: seq<QueuedJob>, l: Ledger)
    requires OneHolderEach(l)
    ensures OneHolderEach(LedgerAfter(agents, jobs, l))
  {
    if jobs != [] {
      var n := |jobs| - 1;
      RoundKeepsHolders(agents, jobs[..n], l);
      PlaceIsJustified(agents, jobs[n], LedgerAfter(agents, jobs[..n], l));
    }
  }
}
