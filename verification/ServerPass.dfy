/** One pass of the dispatch loop keeps the store sound: what it does to silent work, to stranded
 *  reservations, and to the queue.
 */
module ServerPass {
  import opened Jobs
  import opened Capacity
  import opened Store
  import opened Dispatch
  import opened Server
  import opened ServerInvariant

  ghost predicate NoRepeats<T(!new)>(s: seq<T>) {
    forall i, k | 0 <= i < k < |s| :: s[i] != s[k]
  }

  /** A job's row and its intents are the same in both stores. */
  ghost predicate Untouched(db: Db, e: Db, j: JobId) {
    && (j in db.jobs <==> j in e.jobs) && (j in db.jobs ==> e.jobs[j] == db.jobs[j])
    && forall i: IntentId | i.job == j ::
         (i in db.intents <==> i in e.intents) && (i in db.intents ==> e.intents[i] == db.intents[i])
  }

  /** The order of a pass lists every job once. */
  ghost predicate Listed(db: Db, w: World) {
    && NoRepeats(w.order) && (forall j :: j in w.order <==> j in db.jobs)
    && (forall i | i in db.intents :: i in w.ages)
  }

  // ---- Queries list a job once

  lemma {:induction false} InStateOnce(db: Db, order: seq<JobId>, s: JobState)
    requires NoRepeats(order)
    ensures NoRepeats(InState(db, order, s))
  {
    if order != [] {
      var n := |order| - 1;
      InStateOnce(db, order[..n], s);
      InStateMembers(db, order[..n], s);
      forall j | j in order[..n] ensures j != order[n] {
      }
    }
  }

  lemma {:induction false} InStatesOnce(db: Db, order: seq<JobId>, states: seq<JobState>)
    requires NoRepeats(order) && NoRepeats(states)
    ensures NoRepeats(InStates(db, order, states))
  {
    if states != [] {
      var n := |states| - 1;
      InStatesOnce(db, order, states[..n]);
      InStatesMembers(db, order, states[..n]);
      InStateOnce(db, order, states[n]);
      InStateMembers(db, order, states[n]);
      var a, b := InStates(db, order, states[..n]), InState(db, order, states[n]);
      forall i, k | 0 <= i < |a| && 0 <= k < |b| ensures a[i] != b[k] {
        assert a[i] in a && b[k] in b;
        assert db.jobs[a[i]].state in states[..n];
      }
    }
  }

  // ---- Reconciling

  lemma {:induction false} AppliedInTwo(s: Server, a: seq<Reconcile.Action>, b: seq<Reconcile.Action>)
    ensures AppliedAll(s, a + b) == AppliedAll(AppliedAll(s, a), b)
  {
    if b == [] {
      assert a + b == a;
    } else {
      var n := |b| - 1;
      AppliedInTwo(s, a, b[..n]);
      assert (a + b)[..|a + b| - 1] == a + b[..n];
    }
  }

  predicate Watched(db: Db, j: JobId, w: World)
    requires j in db.jobs
  {
    Reconcile.Attended(FlightOf(db, j, w), w.connected, w.now, Reconcile.LEASE_GRACE_SECONDS)
  }

  function VerdictOn(db: Db, j: JobId, w: World): seq<Reconcile.Action>
    requires j in db.jobs
  {
    Reconcile.Verdict(FlightOf(db, j, w), w.connected, w.now, Reconcile.LEASE_GRACE_SECONDS)
  }

  /** What a pass makes of one held job: nothing if its agent is there, an operator's question if it is
   *  mid-commit, and another attempt otherwise.
   */
  function AfterSilence(db: Db, j: JobId, w: World): Db
    requires j in db.jobs
  {
    if Watched(db, j, w) then db
    else if db.jobs[j].state == Committing then With(db, j, db.jobs[j].(state := NeedsOperator))
    else Db(db.jobs[j := BackInQueue(db.jobs[j])], Resolve(db, db.Current(j)).intents)
  }

  lemma SilenceIs(s: Server, j: JobId, w: World)
    requires s.db.Holds(j)
    ensures AppliedAll(s, VerdictOn(s.db, j, w)).db == AfterSilence(s.db, j, w)
  {
    var f := FlightOf(s.db, j, w);
    var v := VerdictOn(s.db, j, w);
    if !Watched(s.db, j, w) {
      if s.db.jobs[j].state == Committing {
        assert v == [Reconcile.Escalate(j)];
        assert AppliedAll(s, v) == Applied(AppliedAll(s, []), v[0]);
      } else {
        assert v[..1] == [Reconcile.ReleaseCapacity(j)] && v[1] == Reconcile.Requeue(j, f.state);
        assert AppliedAll(s, v[..1]) == Applied(AppliedAll(s, []), v[0]);
        RequeuedIs(s.db, j, f.state);
      }
    }
  }

  lemma SilenceKeepsSound(db: Db, j: JobId, w: World)
    requires Sound(db) && db.Holds(j)
    ensures Sound(AfterSilence(db, j, w)) && OnlyAt(db, AfterSilence(db, j, w), j)
  {
    if !Watched(db, j, w) {
      if db.jobs[j].state == Committing {
        MoveIsSound(db, j, NeedsOperator);
      } else {
        RequeuedIs(db, j, db.jobs[j].state);
        RequeuedIsSound(db, j, db.jobs[j].state);
        assert JobSound(db, j);
        BackInQueueIsSound(db, AfterSilence(db, j, w), j);
      }
    }
  }

  /** The rule reads and writes nothing but the job itself. */
  lemma SilenceIsLocal(db: Db, e: Db, j: JobId, w: World)
    requires j in db.jobs && Untouched(db, e, j)
    ensures Untouched(AfterSilence(db, j, w), AfterSilence(e, j, w), j)
    ensures VerdictOn(db, j, w) == VerdictOn(e, j, w)
  {
    if HasLive(db, j) {
      var i :| i in db.intents && i.job == j && db.intents[i].live;
      assert i in e.intents && e.intents[i].live;
    }
    if HasLive(e, j) {
      var i :| i in e.intents && i.job == j && e.intents[i].live;
      assert i in db.intents && db.intents[i].live;
    }
  }

  lemma {:induction false} ReconcileAll(s: Server, ids: seq<JobId>, w: World)
    requires Sound(s.db) && NoRepeats(ids)
    requires forall j | j in ids :: j in s.db.jobs && s.db.Holds(j)
    ensures
      var fs := FlightsOf(s.db, ids, w);
      var r := AppliedAll(s, Reconcile.Verdicts(fs, w.connected, w.now, Reconcile.LEASE_GRACE_SECONDS));
      && Sound(r.db)
      && (forall j | j in ids :: Untouched(AfterSilence(s.db, j, w), r.db, j))
      && (forall j | j !in ids :: Untouched(s.db, r.db, j))
  {
    if ids != [] {
      var n := |ids| - 1;
      forall j | j in ids[..n] ensures s.db.Holds(j) { assert j in ids; }
      ReconcileAll(s, ids[..n], w);
      var fs := FlightsOf(s.db, ids, w);
      assert fs[..|fs| - 1] == FlightsOf(s.db, ids[..n], w);
      var most := Reconcile.Verdicts(fs[..|fs| - 1], w.connected, w.now, Reconcile.LEASE_GRACE_SECONDS);
      AppliedInTwo(s, most, VerdictOn(s.db, ids[n], w));
      var m := AppliedAll(s, most);
      assert ids[n] !in ids[..n] && s.db.Holds(ids[n]);
      ReconcileNext(s.db, m, ids[n], w);
      var e := AfterSilence(m.db, ids[n], w);
      forall j | j in ids ensures Untouched(AfterSilence(s.db, j, w), e, j) {
        if j != ids[n] {
          assert j in ids[..n];
        }
      }
      forall j | j !in ids ensures Untouched(s.db, e, j) {
        assert j !in ids[..n] && ids[n] in ids;
      }
    }
  }

  lemma ReconcileNext(db: Db, m: Server, j: JobId, w: World)
    requires db.Holds(j) && Sound(m.db) && Untouched(db, m.db, j)
    ensures m.db.Holds(j)
    ensures AppliedAll(m, VerdictOn(db, j, w)).db == AfterSilence(m.db, j, w)
    ensures Sound(AfterSilence(m.db, j, w)) && OnlyAt(m.db, AfterSilence(m.db, j, w), j)
    ensures Untouched(AfterSilence(db, j, w), AfterSilence(m.db, j, w), j)
  {
    SilenceIsLocal(db, m.db, j, w);
    SilenceIs(m, j, w);
    SilenceKeepsSound(m.db, j, w);
  }

  /** Reconciling decides every held job it lists by the rule above, and touches no other. */
  lemma ReconciledKeepsSound(s: Server, w: World)
    requires Sound(s.db) && Listed(s.db, w)
    ensures Sound(Reconciled(s, w).db)
    ensures forall j | j in InStates(s.db, w.order, HELD_STATES) ::
      j in s.db.jobs && Untouched(AfterSilence(s.db, j, w), Reconciled(s, w).db, j)
    ensures forall j | j !in InStates(s.db, w.order, HELD_STATES) :: Untouched(s.db, Reconciled(s, w).db, j)
  {
    var ids := InStates(s.db, w.order, HELD_STATES);
    InStatesMembers(s.db, w.order, HELD_STATES);
    InStatesOnce(s.db, w.order, HELD_STATES);
    ReconcileAll(s, ids, w);
  }

  /** Its agent is connected, on a lease that ran out no longer ago than 90 seconds. */
  predicate HeardFrom(db: Db, j: JobId, w: World)
    requires j in db.jobs
  {
    var agent := db.jobs[j].agent;
    && agent.Some? && agent.value in w.connected && agent.value in w.leases
    && w.now - w.leases[agent.value] <= 90
  }

  /** What is taken from an agent that is not heard from: an operator is asked about a commit, and anything else
   *  has lost its reservation and is back in the queue for its next attempt, or has none left.
   */
  predicate TakenBack(row: JobRow, db: Db, j: JobId) {
    && j in db.jobs
    && if row.state == Committing then db.jobs[j] == row.(state := NeedsOperator) && HasLive(db, j)
       else if row.attempt + 1 < row.maxAttempts then
         db.jobs[j] == row.(state := Eligible, attempt := row.attempt + 1) && !HasLive(db, j)
       else db.jobs[j] == row.(state := DeadLettered) && !HasLive(db, j)
  }

  lemma SilentIsTakenBack(db: Db, j: JobId, w: World)
    requires j in db.jobs && JobSound(db, j) && db.Holds(j)
    ensures if HeardFrom(db, j, w) then AfterSilence(db, j, w) == db
            else TakenBack(db.jobs[j], AfterSilence(db, j, w), j)
  {
    var e := AfterSilence(db, j, w);
    if !HeardFrom(db, j, w) {
      if db.jobs[j].state == Committing {
        assert e.Live(e.Current(j));
      } else {
        BackInQueueIsSound(db, e, j);
      }
    }
  }

  lemma UntouchedIsTakenBack(row: JobRow, e: Db, db: Db, j: JobId)
    requires TakenBack(row, e, j) && Untouched(e, db, j)
    ensures TakenBack(row, db, j)
  {
    if HasLive(e, j) {
      var i :| i in e.intents && i.job == j && e.intents[i].live;
      assert i in db.intents && db.intents[i].live;
    }
    if HasLive(db, j) {
      var i :| i in db.intents && i.job == j && db.intents[i].live;
      assert i in e.intents && e.intents[i].live;
    }
  }

  lemma ReconciledDecides(s: Server, w: World, j: JobId)
    requires Sound(s.db) && Listed(s.db, w) && j in InStates(s.db, w.order, HELD_STATES)
    ensures s.db.Holds(j) && JobSound(s.db, j) && Untouched(AfterSilence(s.db, j, w), Reconciled(s, w).db, j)
  {
    InStatesMembers(s.db, w.order, HELD_STATES);
    ReconciledKeepsSound(s, w);
  }

  /** A listed job whose agent is heard from is left alone, and one whose agent is not is taken back. */
  lemma ReconciledTakesBackExactlyTheSilent(s: Server, w: World, j: JobId)
    requires Sound(s.db) && Listed(s.db, w) && j in InStates(s.db, w.order, HELD_STATES)
    ensures j in s.db.jobs
    ensures HeardFrom(s.db, j, w) ==> Untouched(s.db, Reconciled(s, w).db, j)
    ensures !HeardFrom(s.db, j, w) ==> TakenBack(s.db.jobs[j], Reconciled(s, w).db, j)
  {
    ReconciledDecides(s, w, j);
    SilentIsTakenBack(s.db, j, w);
    if !HeardFrom(s.db, j, w) {
      UntouchedIsTakenBack(s.db.jobs[j], AfterSilence(s.db, j, w), Reconciled(s, w).db, j);
    }
  }

  lemma {:induction false} ActionsRelease(s: Server, acts: seq<Reconcile.Action>, j: JobId)
    ensures Reconcile.ReleaseCapacity(j) in acts ==> !AppliedAll(s, acts).ledger.HeldAnywhere(j)
    ensures Reconcile.ReleaseCapacity(j) !in acts && (forall from: JobState :: Reconcile.Requeue(j, from) !in acts) ==>
      (AppliedAll(s, acts).ledger.HeldAnywhere(j) <==> s.ledger.HeldAnywhere(j))
  {
    if acts != [] {
      var n := |acts| - 1;
      ActionsRelease(s, acts[..n], j);
      assert acts == acts[..n] + [acts[n]];
      ActionReleases(AppliedAll(s, acts[..n]), acts[n], j);
    }
  }

  lemma ActionReleases(s: Server, act: Reconcile.Action, j: JobId)
    ensures act == Reconcile.ReleaseCapacity(j) ==> !Applied(s, act).ledger.HeldAnywhere(j)
    ensures Applied(s, act).ledger.HeldAnywhere(j) ==> s.ledger.HeldAnywhere(j)
    ensures act.job != j || act.Escalate? ==>
      (Applied(s, act).ledger.HeldAnywhere(j) <==> s.ledger.HeldAnywhere(j))
  {
    var l, m := s.ledger, Applied(s, act).ledger;
    assert m == l || m == Released(l, act.job);
    if act.job != j && l.HeldAnywhere(j) {
      var a :| a in l.held && j in l.held[a];
      assert j in Released(l, act.job).held[a];
    }
  }

  lemma {:induction false} FlightsAre(db: Db, ids: seq<JobId>, w: World)
    requires forall j | j in ids :: j in db.jobs
    ensures forall f :: f in FlightsOf(db, ids, w) <==> f.job in ids && f == FlightOf(db, f.job, w)
  {
    if ids != [] {
      var n := |ids| - 1;
      assert ids == ids[..n] + [ids[n]];
      FlightsAre(db, ids[..n], w);
    }
  }

  /** What is taken from a silent agent holds no slot of it; what its agent is heard from about keeps its own. */
  lemma ReconciledFreesTheSlotsOfTheSilent(s: Server, w: World, j: JobId)
    requires j in InStates(s.db, w.order, HELD_STATES)
    ensures j in s.db.jobs
    ensures !HeardFrom(s.db, j, w) && s.db.jobs[j].state != Committing ==> !Reconciled(s, w).ledger.HeldAnywhere(j)
    ensures HeardFrom(s.db, j, w) || s.db.jobs[j].state == Committing ==>
      (Reconciled(s, w).ledger.HeldAnywhere(j) <==> s.ledger.HeldAnywhere(j))
  {
    var ids := InStates(s.db, w.order, HELD_STATES);
    InStatesMembers(s.db, w.order, HELD_STATES);
    var fs, grace := FlightsOf(s.db, ids, w), Reconcile.LEASE_GRACE_SECONDS;
    FlightsAre(s.db, ids, w);
    Reconcile.SilenceIsNeverGuessed(fs, w.connected, w.now, grace, j);
    ActionsRelease(s, Reconcile.Verdicts(fs, w.connected, w.now, grace), j);
    var f := FlightOf(s.db, j, w);
    assert f in fs && (Reconcile.Silent(f, w.connected, w.now, grace) <==> !HeardFrom(s.db, j, w));
    if !HeardFrom(s.db, j, w) && s.db.jobs[j].state != Committing {
      assert Reconcile.Requeue(j, f.state) in Reconcile.Verdicts(fs, w.connected, w.now, grace);
    }
  }

  // ---- Sweeping

  function Closed(row: IntentRow, now: bool): IntentRow { if now then row.(live := false) else row }

  /** Sweeping closes the intents of finished jobs and nothing else: not one of a held job, and not one
   *  a human has been asked about.
   */
  lemma {:induction false} SweptIs(db: Db, live: seq<IntentId>)
    ensures Swept(db, live).jobs == db.jobs && Swept(db, live).intents.Keys == db.intents.Keys
    ensures forall i | i in db.intents ::
      Swept(db, live).intents[i] == Closed(db.intents[i], i in live && Stranded(db, i.job))
  {
    if live != [] {
      var n := |live| - 1;
      SweptIs(db, live[..n]);
      assert live == live[..n] + [live[n]];
    }
  }

  lemma {:induction false} SweptIsSound(db: Db, live: seq<IntentId>)
    requires Sound(db)
    ensures Sound(Swept(db, live))
  {
    if live != [] {
      var n := |live| - 1;
      SweptIs(db, live[..n]);
      SweptIsSound(db, live[..n]);
      var most := Swept(db, live[..n]);
      if Stranded(most, live[n].job) { ResolveIsSound(most, live[n]); }
    }
  }

  lemma {:induction false} LiveIntentsAre(db: Db, ages: seq<IntentId>)
    ensures forall i :: i in LiveIntents(db, ages) <==> i in ages && db.Live(i)
  {
    if ages != [] {
      var n := |ages| - 1;
      LiveIntentsAre(db, ages[..n]);
      assert ages == ages[..n] + [ages[n]];
    }
  }

  /** After a pass, a live intent belongs to a held job or to one that waits for an operator. */
  ghost predicate Tidy(db: Db) {
    forall i | db.Live(i) :: i.job in db.jobs && (db.Holds(i.job) || db.jobs[i.job].state == NeedsOperator)
  }

  lemma SweptIsTidy(db: Db, ages: seq<IntentId>)
    requires Sound(db) && forall i | i in db.intents :: i in ages
    ensures Sound(Swept(db, LiveIntents(db, ages))) && Tidy(Swept(db, LiveIntents(db, ages)))
  {
    LiveIntentsAre(db, ages);
    SweptIs(db, LiveIntents(db, ages));
    SweptIsSound(db, LiveIntents(db, ages));
    var e := Swept(db, LiveIntents(db, ages));
    forall i | e.Live(i) ensures db.Holds(i.job) || db.jobs[i.job].state == NeedsOperator {
      assert JobSound(db, i.job);
      assert i in LiveIntents(db, ages);
    }
  }

  // ---- Placing

  ghost predicate QueuedApart(qs: seq<QueuedJob>) {
    forall i, k | 0 <= i < k < |qs| :: qs[i].id != qs[k].id
  }

  ghost predicate PlacedApart(os: seq<Outcome>) {
    forall i, k | 0 <= i < k < |os| :: os[i].job != os[k].job
  }

  lemma {:induction false} QueuedOnce(db: Db, ids: seq<JobId>, legible: JobId -> bool)
    requires NoRepeats(ids) && forall j | j in ids :: j in db.jobs
    ensures QueuedApart(QueuedOf(db, ids, legible))
  {
    if ids != [] {
      var n := |ids| - 1;
      QueuedOnce(db, ids[..n], legible);
      QueuedMembers(db, ids[..n], legible);
      var qs := QueuedOf(db, ids[..n], legible);
      forall i | 0 <= i < |qs| ensures qs[i].id != ids[n] {
        assert qs[i] in qs;
        assert qs[i].id in ids[..n];
      }
      assert QueuedOf(db, ids, legible)[..|qs|] == qs;
    }
  }

  lemma {:induction false} PlacedOnce(agents: seq<AgentEntry>, jobs: seq<QueuedJob>, l: Ledger)
    requires QueuedApart(jobs)
    ensures PlacedApart(Placements(Outcomes(agents, jobs, l)))
  {
    if jobs != [] {
      var n := |jobs| - 1;
      PlacedOnce(agents, jobs[..n], l);
      PlacementsAreQueued(agents, jobs[..n], l);
      var os := Outcomes(agents, jobs, l);
      assert os[..|os| - 1] == Outcomes(agents, jobs[..n], l);
      PlaceIsJustified(agents, jobs[n], LedgerAfter(agents, jobs[..n], l));
      var ps := Placements(os[..|os| - 1]);
      forall i | 0 <= i < |ps| ensures ps[i].job != jobs[n].id {
        assert ps[i] in ps;
        var m :| 0 <= m < n && jobs[..n][m].id == ps[i].job;
        assert jobs[m].id == ps[i].job;
      }
    }
  }

  /** The round of a pass places each job at most once. */
  lemma RoundPlacesOnce(s: Server, w: World)
    requires Listed(s.db, w)
    ensures PlacedApart(RoundOf(s, w))
  {
    var ids := InStates(s.db, w.order, DISPATCHABLE_STATES);
    InStatesMembers(s.db, w.order, DISPATCHABLE_STATES);
    InStatesOnce(s.db, w.order, DISPATCHABLE_STATES);
    QueuedOnce(s.db, ids, w.legible);
    PlacedOnce(w.fleet, QueuedOf(s.db, ids, w.legible), s.ledger);
  }

  ghost predicate Round(seen: Db, os: seq<Outcome>) {
    && (forall o | o in os :: o.Placed? && o.job in seen.jobs && seen.jobs[o.job].state in {Pending, Eligible})
    && PlacedApart(os)
  }

  ghost predicate InRound(os: seq<Outcome>, j: JobId) { exists o | o in os :: o.job == j }

  lemma {:induction false} PlacedAllIsSound(s: Server, os: seq<Outcome>, sites: JobId -> Site)
    requires Sound(s.db) && Round(s.db, os)
    ensures Sound(PlacedAll(s, s.db, os, sites).db)
    ensures forall j | !InRound(os, j) :: Untouched(s.db, PlacedAll(s, s.db, os, sites).db, j)
    ensures Tidy(s.db) ==> Tidy(PlacedAll(s, s.db, os, sites).db)
  {
    if os != [] {
      var n := |os| - 1;
      var o := os[n];
      assert o in os;
      assert Round(s.db, os[..n]);
      PlacedAllIsSound(s, os[..n], sites);
      var m := PlacedAll(s, s.db, os[..n], sites);
      assert !InRound(os[..n], o.job);
      assert Untouched(s.db, m.db, o.job);
      PlacedOnIsSound(m.db, o.job, s.db.jobs[o.job], o.agent, sites(o.job));
      var e := PlacedAll(s, s.db, os, sites);
      forall j | !InRound(os, j) ensures Untouched(s.db, e.db, j) {
        assert !InRound(os[..n], j);
      }
      if Tidy(s.db) { PlacedOnIsTidy(m.db, o.job, s.db.jobs[o.job], o.agent, sites(o.job)); }
    }
  }

  /** When the turn of a placement comes, its job is as it was when the round was decided. */
  lemma NextIsWaiting(s: Server, os: seq<Outcome>, sites: JobId -> Site)
    requires Sound(s.db) && Round(s.db, os) && os != []
    ensures
      var n := |os| - 1;
      var m := PlacedAll(s, s.db, os[..n], sites).db;
      Sound(m) && os[n] in os && Waiting(m, os[n].job, s.db.jobs[os[n].job]) && Round(s.db, os[..n])
  {
    var n := |os| - 1;
    assert os[n] in os;
    assert Round(s.db, os[..n]);
    PlacedAllIsSound(s, os[..n], sites);
    assert !InRound(os[..n], os[n].job);
    assert Untouched(s.db, PlacedAll(s, s.db, os[..n], sites).db, os[n].job);
  }

  lemma PlacedOnIsTidy(db: Db, j: JobId, seen: JobRow, a: AgentId, site: Site)
    requires Sound(db) && Waiting(db, j, seen) && Tidy(db)
    ensures Tidy(PlacedOn(db, j, seen, a, site).0)
  {
    PlacedOnIs(db, j, seen, a, site);
    var e := PlacedOn(db, j, seen, a, site).0;
    if e != db {
      var h := HandedOver(db, j, a, site.epoch.value);
      assert JobSound(db, j);
      forall i | e.Live(i) ensures i.job in e.jobs && (e.Holds(i.job) || e.jobs[i.job].state == NeedsOperator) {
        if i.job == j {
          assert i == db.Current(j);
        } else {
          assert db.Live(i);
        }
      }
    }
  }
}
