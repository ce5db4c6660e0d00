/** No agent is ever given more work than its limits, judged by what the database shows. */
module ServerCapacity {
  import opened Optional
  import opened Jobs
  import opened Capacity
  import opened Store
  import opened Dispatch
  import opened Server
  import opened ServerInvariant
  import opened ServerPass
  import opened ServerRuns
  import opened ServerGuarantees

  predicate HeldBy(db: Db, j: JobId, a: AgentId) { db.Holds(j) && db.jobs[j].agent == Some(a) }

  /** What the database shows one agent holding. */
  function Holding(db: Db, a: AgentId): Holdings {
    map j | j in db.jobs && HeldBy(db, j, a) :: db.jobs[j].needs
  }

  ghost predicate NobodyOverfull(db: Db, lim: AgentLimits) { forall a :: Within(lim, Holding(db, a)) }

  /** The jobs of one state, among those listed. */
  function Among(db: Db, order: seq<JobId>, s: JobState): set<JobId> { set j | j in order && db.In(j, s) }

  /** The held rows of every state fit the window a pass reads. */
  ghost predicate FitsWindow(db: Db, order: seq<JobId>) {
    forall s | s in HELD_STATES :: |Among(db, order, s)| <= QUEUE_WINDOW
  }

  lemma IncludedWithin(lim: AgentLimits, h: Holdings, k: Holdings)
    requires Included(h, k) && Within(lim, k)
    ensures Within(lim, h)
  {
    forall c: JobClass ensures |OfClass(h, c)| <= lim.ClassLimit(c) {
      SubsetHoldsNoMore(h, k, c);
    }
    SubsetHoldsNoMore(h, k, JobClass.Audio);
  }

  // ---- The window

  lemma AmongGrows(db: Db, order: seq<JobId>, s: JobState)
    requires NoRepeats(order) && order != []
    ensures
      var last, most := order[|order| - 1], Among(db, order[..|order| - 1], s);
      && Among(db, order, s) == (if db.In(last, s) then most + {last} else most)
      && last !in most
  {
    var n := |order| - 1;
    assert order == order[..n] + [order[n]];
  }

  lemma {:induction false} WindowIsComplete(db: Db, order: seq<JobId>, s: JobState)
    requires NoRepeats(order) && |Among(db, order, s)| <= QUEUE_WINDOW
    ensures |InState(db, order, s)| == |Among(db, order, s)|
    ensures forall j | j in Among(db, order, s) :: j in InState(db, order, s)
  {
    if order != [] {
      AmongGrows(db, order, s);
      WindowIsComplete(db, order[..|order| - 1], s);
    }
  }

  lemma {:induction false} InEveryState(db: Db, order: seq<JobId>, states: seq<JobState>, j: JobId)
    requires forall s | s in states && j in Among(db, order, s) :: j in InState(db, order, s)
    ensures j in order && j in db.jobs && db.jobs[j].state in states ==> j in InStates(db, order, states)
  {
    if states != [] {
      var n := |states| - 1;
      assert states == states[..n] + [states[n]];
      InEveryState(db, order, states[..n], j);
    }
  }

  /** Every held job is in the rows a rebuild is given, when they fit the window. */
  lemma HeldAreListed(db: Db, order: seq<JobId>, j: JobId)
    requires NoRepeats(order) && FitsWindow(db, order) && j in order && db.Holds(j)
    ensures j in InStates(db, order, HELD_STATES)
  {
    assert db.jobs[j].state in HELD_STATES;
    forall s | s in HELD_STATES && j in Among(db, order, s) ensures j in InState(db, order, s) {
      WindowIsComplete(db, order, s);
    }
    InEveryState(db, order, HELD_STATES, j);
  }

  // ---- The rebuilt ledger

  /** Limits the orchestrator sets, and no others. */
  ghost predicate Uniform(l: Ledger, lim: AgentLimits) {
    l.limits.Keys == l.held.Keys && forall a | a in l.limits :: l.limits[a] == lim
  }

  lemma {:induction false} LimitedIsUniform(l: Ledger, fleet: seq<AgentEntry>, lim: AgentLimits)
    requires Uniform(l, lim)
    ensures Uniform(AllLimited(l, fleet, lim), lim)
    ensures forall i | 0 <= i < |fleet| :: fleet[i].id in AllLimited(l, fleet, lim).limits
  {
    if fleet != [] {
      var n := |fleet| - 1;
      LimitedIsUniform(l, fleet[..n], lim);
      forall i | 0 <= i < n ensures fleet[i].id in AllLimited(l, fleet, lim).limits {
        assert fleet[i] == fleet[..n][i];
      }
    }
  }

  /** The rebuilt ledger shows each known agent exactly what the database shows it. */
  lemma RebuiltIsTheDatabase(l: Ledger, db: Db, order: seq<JobId>, fleet: seq<AgentEntry>, lim: AgentLimits)
    requires Uniform(l, lim) && NoRepeats(order) && FitsWindow(db, order) && forall j :: j in order <==> j in db.jobs
    ensures Uniform(Rebuilt(l, db, order, fleet, lim), lim)
    ensures forall a | a in Rebuilt(l, db, order, fleet, lim).held ::
      Rebuilt(l, db, order, fleet, lim).held[a] == Holding(db, a)
  {
    InStatesMembers(db, order, HELD_STATES);
    LimitedIsUniform(l, fleet, lim);
    var rows := RowsOf(db, InStates(db, order, HELD_STATES));
    ReplayKeepsAgents(Emptied(AllLimited(l, fleet, lim)), rows);
    forall a | a in Rebuilt(l, db, order, fleet, lim).held
      ensures Rebuilt(l, db, order, fleet, lim).held[a] == Holding(db, a)
    {
      RebuiltFor(Emptied(AllLimited(l, fleet, lim)), db, order, a);
    }
  }

  lemma RebuiltFor(empty: Ledger, db: Db, order: seq<JobId>, a: AgentId)
    requires NoRepeats(order) && FitsWindow(db, order) && forall j :: j in order <==> j in db.jobs
    requires a in empty.held && empty.held[a] == map[]
    requires forall j | j in InStates(db, order, HELD_STATES) :: j in db.jobs
    ensures
      var m := Replay(empty, RowsOf(db, InStates(db, order, HELD_STATES))).0;
      a in m.held && m.held[a] == Holding(db, a)
  {
    var ids := InStates(db, order, HELD_STATES);
    var rows := RowsOf(db, ids);
    RowsAre(db, ids);
    InStatesMembers(db, order, HELD_STATES);
    ReplayKeepsAgents(empty, rows);
    var m := Replay(empty, rows).0;
    forall j ensures j in m.held[a] <==> j in Holding(db, a)
      ensures j in m.held[a] ==> m.held[a][j] == Holding(db, a)[j]
    {
      ReplayHoldsTheRows(empty, rows, a, j);
      if HeldBy(db, j, a) {
        HeldAreListed(db, order, j);
        assert Occupies(Row(a, j, db.jobs[j].needs, db.jobs[j].state), a, j);
      }
    }
  }

  lemma RebuiltIsWithin(l: Ledger, db: Db, order: seq<JobId>, fleet: seq<AgentEntry>, lim: AgentLimits)
    requires Uniform(l, lim) && NoRepeats(order) && FitsWindow(db, order) && forall j :: j in order <==> j in db.jobs
    requires NobodyOverfull(db, lim)
    ensures WithinLimits(Rebuilt(l, db, order, fleet, lim)) && OneHolderEach(Rebuilt(l, db, order, fleet, lim))
  {
    RebuiltIsTheDatabase(l, db, order, fleet, lim);
  }

  // ---- Dispatch

  ghost predicate HeldAt(m: Ledger, a: AgentId, j: JobId, needs: Grant) {
    a in m.limits && a in m.held && j in m.held[a] && m.held[a][j] == needs
  }

  lemma PlacedIsHeld(agents: seq<AgentEntry>, job: QueuedJob, l: Ledger)
    requires Place(agents, job, l).Placed?
    ensures HeldAt(After(l, job, Place(agents, job, l)), Place(agents, job, l).agent, job.id, job.Needs())
  {
    PlaceIsJustified(agents, job, l);
  }

  lemma {:induction false} PlacementsHoldTheirNeeds(agents: seq<AgentEntry>, jobs: seq<QueuedJob>, l: Ledger, i: nat)
    requires i < |jobs| && Outcomes(agents, jobs, l)[i].Placed?
    ensures HeldAt(LedgerAfter(agents, jobs, l), Outcomes(agents, jobs, l)[i].agent, jobs[i].id, jobs[i].Needs())
  {
    var n := |jobs| - 1;
    var before := LedgerAfter(agents, jobs[..n], l);
    if i < n {
      PlaceKeepsTheLedger(agents, jobs[n], before);
      PlacementsHoldTheirNeeds(agents, jobs[..n], l, i);
      var agent := Outcomes(agents, jobs, l)[i].agent;
    } else {
      PlacedIsHeld(agents, jobs[n], before);
    }
  }

  /** A placement of the round is held, as the job needs it, in the ledger the round leaves behind. */
  lemma RoundIsInItsLedger(s: Server, w: World, o: Outcome)
    requires o in RoundOf(s, w)
    ensures o.agent in RoundLedger(s, w).limits
    ensures o.job in RoundLedger(s, w).At(o.agent) && RoundLedger(s, w).At(o.agent)[o.job] == s.db.jobs[o.job].needs
  {
    var ids := InStates(s.db, w.order, DISPATCHABLE_STATES);
    InStatesMembers(s.db, w.order, DISPATCHABLE_STATES);
    var qs := QueuedOf(s.db, ids, w.legible);
    QueuedMembers(s.db, ids, w.legible);
    PlacementsAreOutcomes(Outcomes(w.fleet, qs, s.ledger));
    var i :| 0 <= i < |qs| && Outcomes(w.fleet, qs, s.ledger)[i] == o;
    EveryOutcomeIsJustified(w.fleet, qs, s.ledger, i);
    PlacementsHoldTheirNeeds(w.fleet, qs, s.ledger, i);
    assert qs[i] in qs;
  }

  lemma OnePlacementHandsOut(db: Db, k: JobId, seen: JobRow, b: AgentId, site: Site, j: JobId, a: AgentId)
    requires Sound(db) && Waiting(db, k, seen)
    ensures HeldBy(PlacedOn(db, k, seen, b, site).0, j, a) ==> HeldBy(db, j, a) || (j == k && a == b)
  {
    PlacedOnIs(db, k, seen, b, site);
  }

  /** Whoever holds a job after the placements held it before, or was placed it and no one else. */
  lemma {:induction false} HeldWasPlaced(s: Server, os: seq<Outcome>, sites: JobId -> Site, j: JobId, a: AgentId)
    requires Sound(s.db) && Round(s.db, os)
    ensures HeldBy(PlacedAll(s, s.db, os, sites).db, j, a) ==>
      HeldBy(s.db, j, a) || exists o | o in os :: o.job == j && o.agent == a
  {
    if os != [] {
      var n := |os| - 1;
      var o := os[n];
      NextIsWaiting(s, os, sites);
      HeldWasPlaced(s, os[..n], sites, j, a);
      var m := PlacedAll(s, s.db, os[..n], sites);
      OnePlacementHandsOut(m.db, o.job, s.db.jobs[o.job], o.agent, sites(o.job), j, a);
    }
  }

  lemma DispatchKeepsWithin(s: Server, w: World, lim: AgentLimits, a: AgentId)
    requires Sound(s.db) && Listed(s.db, w) && NobodyOverfull(s.db, lim)
    requires Uniform(s.ledger, lim) && WithinLimits(s.ledger) && OneHolderEach(s.ledger)
    requires forall b | b in s.ledger.held :: s.ledger.held[b] == Holding(s.db, b)
    ensures Within(lim, Holding(Dispatched(s, w).db, a))
  {
    var h := Holding(Dispatched(s, w).db, a);
    var k := if a in RoundLedger(s, w).limits then RoundLedger(s, w).At(a) else Holding(s.db, a);
    forall j | j in h.Keys ensures j in k.Keys && k[j] == h[j] {
      DispatchedHoldings(s, w, j, a);
      HeldMeansListed(s, w, lim, j, a);
    }
    RoundLedgerIsWithin(s, w);
    IncludedWithin(lim, h, k);
  }

  /** Whom a job is held by after a round, and that what it needs has not changed. */
  lemma DispatchedHoldings(s: Server, w: World, j: JobId, a: AgentId)
    requires Sound(s.db) && Listed(s.db, w) && HeldBy(Dispatched(s, w).db, j, a)
    ensures HeldBy(s.db, j, a) || exists o | o in RoundOf(s, w) :: o.job == j && o.agent == a
    ensures j in s.db.jobs && Dispatched(s, w).db.jobs[j].needs == s.db.jobs[j].needs
  {
    var start := Server(s.db, RoundLedger(s, w));
    RoundPlacesOnce(s, w);
    HeldWasPlaced(start, RoundOf(s, w), w.sites, j, a);
    PlacedAllIsLater(start, s.db, RoundOf(s, w), w.sites);
    assert RowLater(s.db.jobs[j], Dispatched(s, w).db.jobs[j]);
  }

  lemma RoundLedgerIsWithin(s: Server, w: World)
    requires WithinLimits(s.ledger) && OneHolderEach(s.ledger)
    ensures WithinLimits(RoundLedger(s, w)) && Grown(s.ledger, RoundLedger(s, w))
  {
    var ids := InStates(s.db, w.order, DISPATCHABLE_STATES);
    InStatesMembers(s.db, w.order, DISPATCHABLE_STATES);
    RoundKeepsLimits(w.fleet, QueuedOf(s.db, ids, w.legible), s.ledger);
  }

  lemma HeldMeansListed(s: Server, w: World, lim: AgentLimits, j: JobId, a: AgentId)
    requires Uniform(s.ledger, lim) && WithinLimits(s.ledger) && OneHolderEach(s.ledger)
    requires forall b | b in s.ledger.held :: s.ledger.held[b] == Holding(s.db, b)
    requires HeldBy(s.db, j, a) || exists o | o in RoundOf(s, w) :: o.job == j && o.agent == a
    ensures j in s.db.jobs
    ensures a in RoundLedger(s, w).limits ==>
      j in RoundLedger(s, w).At(a) && RoundLedger(s, w).At(a)[j] == s.db.jobs[j].needs
    ensures a !in RoundLedger(s, w).limits ==> HeldBy(s.db, j, a)
  {
    RoundLedgerIsWithin(s, w);
    if o :| o in RoundOf(s, w) && o.job == j && o.agent == a {
      RoundIsInItsLedger(s, w, o);
    } else {
      if a in RoundLedger(s, w).limits {
        assert s.ledger.held[a] == Holding(s.db, a);
        assert Included(s.ledger.held[a], RoundLedger(s, w).held[a]);
      }
    }
  }

  // ---- A pass, and a run

  /** A change that hands no job to anyone. */
  ghost predicate HandsOutNothing(db: Db, e: Db) {
    forall j, a | HeldBy(e, j, a) :: HeldBy(db, j, a) && e.jobs[j].needs == db.jobs[j].needs
  }

  lemma NothingHandedOut(db: Db, e: Db, lim: AgentLimits)
    requires HandsOutNothing(db, e) && NobodyOverfull(db, lim)
    ensures NobodyOverfull(e, lim)
  {
    forall a ensures Within(lim, Holding(e, a)) {
      forall j | j in Holding(e, a).Keys ensures j in Holding(db, a).Keys && Holding(db, a)[j] == Holding(e, a)[j] {
        assert HeldBy(e, j, a);
      }
      IncludedWithin(lim, Holding(e, a), Holding(db, a));
    }
  }

  /** Reconciling leaves held only what was held, in the state it was held in. */
  lemma SilenceHandsOutNothing(s: Server, w: World, j: JobId)
    requires Sound(s.db) && Listed(s.db, w) && Reconciled(s, w).db.Holds(j)
    ensures j in s.db.jobs && Reconciled(s, w).db.jobs[j] == s.db.jobs[j]
  {
    ReconciledKeepsKeys(s, w);
    ReconciledAt(s, w, j);
    SilenceHeld(s.db, Reconciled(s, w).db, w, j);
  }

  lemma SilenceHeld(db: Db, e: Db, w: World, j: JobId)
    requires j in db.jobs && e.Holds(j)
    requires Untouched(db, e, j) || (db.Holds(j) && Untouched(AfterSilence(db, j, w), e, j))
    ensures e.jobs[j] == db.jobs[j]
  {
  }

  lemma PreparedHandsOutNothing(s: Server, w: World, lim: AgentLimits)
    requires Sound(s.db) && Listed(s.db, w)
    ensures HandsOutNothing(s.db, Prepared(s, w, lim).db)
    ensures FitsWindow(s.db, w.order) ==> FitsWindow(Prepared(s, w, lim).db, w.order)
  {
    var r := Reconciled(s, w);
    var p := Prepared(s, w, lim);
    SweptIs(r.db, LiveIntents(r.db, w.ages));
    forall j | p.db.Holds(j) ensures j in s.db.jobs && p.db.jobs[j] == s.db.jobs[j] {
      assert r.db.Holds(j);
      SilenceHandsOutNothing(s, w, j);
    }
    forall t | t in HELD_STATES && FitsWindow(s.db, w.order) ensures |Among(p.db, w.order, t)| <= QUEUE_WINDOW {
      forall j | j in Among(p.db, w.order, t) ensures j in Among(s.db, w.order, t) {
        assert p.db.Holds(j);
      }
      SubsetCardinality(Among(p.db, w.order, t), Among(s.db, w.order, t));
    }
  }

  /** A pass gives no agent more than its limits allow, by the database's own account. */
  lemma TickKeepsWithin(s: Server, w: World, lim: AgentLimits)
    requires Sound(s.db) && Listed(s.db, w) && FitsWindow(s.db, w.order)
    requires NobodyOverfull(s.db, lim) && Uniform(s.ledger, lim)
    ensures NobodyOverfull(Ticked(s, w, lim).db, lim)
  {
    PreparedHandsOutNothing(s, w, lim);
    var p := Prepared(s, w, lim);
    NothingHandedOut(s.db, p.db, lim);
    if w.fleet != [] && !w.paused {
      PreparedIsSound(s, w, lim);
      var r := Reconciled(s, w);
      ReconciledIsUniform(s, w, lim);
      RebuiltIsTheDatabase(r.ledger, p.db, w.order, w.fleet, lim);
      RebuiltIsWithin(r.ledger, p.db, w.order, w.fleet, lim);
      forall a ensures Within(lim, Holding(Ticked(s, w, lim).db, a)) {
        DispatchKeepsWithin(p, w, lim, a);
      }
    }
  }

  lemma {:induction false} ActionsKeepUniform(s: Server, acts: seq<Reconcile.Action>, lim: AgentLimits)
    requires Uniform(s.ledger, lim)
    ensures Uniform(AppliedAll(s, acts).ledger, lim)
  {
    if acts != [] {
      ActionsKeepUniform(s, acts[..|acts| - 1], lim);
    }
  }

  lemma ReconciledIsUniform(s: Server, w: World, lim: AgentLimits)
    requires Uniform(s.ledger, lim)
    ensures Uniform(Reconciled(s, w).ledger, lim)
  {
    var ids := InStates(s.db, w.order, HELD_STATES);
    InStatesMembers(s.db, w.order, HELD_STATES);
    var fs := FlightsOf(s.db, ids, w);
    ActionsKeepUniform(s, Reconcile.Verdicts(fs, w.connected, w.now, Reconcile.LEASE_GRACE_SECONDS), lim);
  }

  lemma {:induction false} PlacedAllIsUniform(
      s: Server, seen: Db, os: seq<Outcome>, sites: JobId -> Site, lim: AgentLimits)
    requires Uniform(s.ledger, lim) && forall o | o in os :: o.Placed? && o.job in seen.jobs
    ensures Uniform(PlacedAll(s, seen, os, sites).ledger, lim)
  {
    if os != [] {
      PlacedAllIsUniform(s, seen, os[..|os| - 1], sites, lim);
    }
  }

  lemma TickIsUniform(s: Server, w: World, lim: AgentLimits)
    requires Uniform(s.ledger, lim)
    ensures Uniform(Ticked(s, w, lim).ledger, lim)
  {
    ReconciledIsUniform(s, w, lim);
    var p := Prepared(s, w, lim);
    if w.fleet != [] {
      LedgerIsUniform(Reconciled(s, w).ledger, p.db, w, lim);
      if !w.paused {
        RoundLedgerIsUniform(p, w, lim);
        PlacedAllIsUniform(Server(p.db, RoundLedger(p, w)), p.db, RoundOf(p, w), w.sites, lim);
      }
    }
  }

  lemma LedgerIsUniform(l: Ledger, db: Db, w: World, lim: AgentLimits)
    requires Uniform(l, lim)
    ensures Uniform(Rebuilt(l, db, w.order, w.fleet, lim), lim)
  {
    var ids := InStates(db, w.order, HELD_STATES);
    InStatesMembers(db, w.order, HELD_STATES);
    LimitedIsUniform(l, w.fleet, lim);
    ReplayIsUniform(Emptied(AllLimited(l, w.fleet, lim)), RowsOf(db, ids), lim);
  }

  lemma {:induction false} ReplayIsUniform(l: Ledger, rows: seq<Row>, lim: AgentLimits)
    requires Uniform(l, lim)
    ensures Uniform(Replay(l, rows).0, lim)
  {
    if rows != [] {
      ReplayIsUniform(l, rows[..|rows| - 1], lim);
    }
  }

  lemma RoundLedgerIsUniform(s: Server, w: World, lim: AgentLimits)
    requires Uniform(s.ledger, lim)
    ensures Uniform(RoundLedger(s, w), lim)
  {
    var ids := InStates(s.db, w.order, DISPATCHABLE_STATES);
    InStatesMembers(s.db, w.order, DISPATCHABLE_STATES);
    RoundIsUniform(w.fleet, QueuedOf(s.db, ids, w.legible), s.ledger, lim);
  }

  lemma {:induction false} RoundIsUniform(agents: seq<AgentEntry>, jobs: seq<QueuedJob>, l: Ledger, lim: AgentLimits)
    requires Uniform(l, lim)
    ensures Uniform(LedgerAfter(agents, jobs, l), lim)
  {
    if jobs != [] {
      var n := |jobs| - 1;
      RoundIsUniform(agents, jobs[..n], l, lim);
      PlaceIsJustified(agents, jobs[n], LedgerAfter(agents, jobs[..n], l));
    }
  }

  lemma ResultHandsOutNothing(db: Db, a: AgentId, epoch: nat, j: JobId, passed: bool)
    ensures HandsOutNothing(db, ResultIn(db, a, epoch, j, passed))
  {
    if Heeded(db, a, epoch, j) {
      var row := db.jobs[j];
      var started := if row.state == Assigned then Either(Transition(db, j, Assigned, Running), db) else db;
      MoveHandsOutNothing(db, j, Assigned, Running);
      MoveHandsOutNothing(started, j, Running, Verifying);
      var freed := Resolve(started, IntentId(j, row.attempt));
      MoveHandsOutNothing(freed, j, Running, Retrying);
      var t := Transition(freed, j, Running, Retrying);
      if t.Some? { RetriedHandsOutNothing(t.value, j, row.attempt, row.maxAttempts); }
    }
  }

  lemma MoveHandsOutNothing(db: Db, j: JobId, from: JobState, to: JobState)
    requires to.HoldsCapacity() ==> from.HoldsCapacity()
    ensures HandsOutNothing(db, Either(Transition(db, j, from, to), db))
  {
  }

  lemma RetriedHandsOutNothing(db: Db, j: JobId, attempt: nat, maxAttempts: nat)
    ensures HandsOutNothing(db, Either(Retried(db, j, attempt, maxAttempts), db))
  {
  }

  lemma ReportHandsOutNothing(db: Db, a: AgentId, epoch: nat, i: IntentId, r: Report)
    ensures HandsOutNothing(db, ReportIn(db, a, epoch, i, r))
  {
  }

  lemma MessageHandsOutNothing(s: Server, e: Event, lim: AgentLimits)
    requires !e.Tick?
    ensures HandsOutNothing(s.db, Next(s, e, lim).db)
  {
    match e
    case Result(a, epoch, j, passed) => ResultHandsOutNothing(s.db, a, epoch, j, passed);
    case CommitReport(a, epoch, i, r) => ReportHandsOutNothing(s.db, a, epoch, i, r);
    case _ =>
  }

  /** Every pass of a run finds its held rows inside the window. */
  ghost predicate WindowsFit(s: Server, es: seq<Event>, lim: AgentLimits) {
    forall i | 0 <= i < |es| && es[i].Tick? :: FitsWindow(Run(s, es[..i], lim).db, es[i].w.order)
  }

  /** In every run the database never shows an agent holding more jobs than its slots in all, than its
   *  slots for a class, or than its slots for large files.
   */
  lemma {:induction false} RunKeepsWithin(s: Server, es: seq<Event>, lim: AgentLimits)
    requires Sound(s.db) && AllLegal(s, es, lim) && WindowsFit(s, es, lim)
    requires NobodyOverfull(s.db, lim) && Uniform(s.ledger, lim)
    ensures NobodyOverfull(Run(s, es, lim).db, lim) && Uniform(Run(s, es, lim).ledger, lim)
  {
    if es != [] {
      var n := |es| - 1;
      LegalSoFar(s, es, lim);
      var most := es[..n];
      forall i | 0 <= i < n && most[i].Tick? ensures FitsWindow(Run(s, most[..i], lim).db, most[i].w.order) {
        assert most[..i] == es[..i] && most[i] == es[i];
      }
      RunKeepsWithin(s, most, lim);
      RunIsSound(s, most, lim);
      var m := Run(s, most, lim);
      match es[n] {
        case Tick(w) =>
          TickKeepsWithin(m, w, lim);
          TickIsUniform(m, w, lim);
        case _ =>
          MessageHandsOutNothing(m, es[n], lim);
          NothingHandedOut(m.db, Next(m, es[n], lim).db, lim);
      }
    }
  }
}
