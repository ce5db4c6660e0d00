/** Whom a pass gives its work to, on what the agents advertise and the jobs ask for. */
module RoundRules {
  import opened Jobs
  import opened Capability
  import opened Capacity
  import opened Store
  import opened Dispatch
  import opened Server
  import opened ServerInvariant
  import opened ServerPass
  import opened ServerRuns
  import opened ServerCapacity

  /** The agent takes work, may install, and has everything the job asks for. */
  ghost predicate Takes(a: AgentEntry, row: JobRow) {
    a.accepting && a.commitEligible && forall r | r in row.requirements :: Provides(a, r)
  }

  function Queued(db: Db, j: JobId): QueuedJob
    requires j in db.jobs
  {
    var row := db.jobs[j];
    QueuedJob(j, row.needs.class_, row.needs.size, row.requirements, row.bucketKey, [])
  }

  lemma {:induction false} QueuedExactly(db: Db, ids: seq<JobId>, legible: JobId -> bool)
    requires forall j | j in ids :: j in db.jobs
    ensures forall q :: q in QueuedOf(db, ids, legible) <==> q.id in ids && legible(q.id) && q == Queued(db, q.id)
  {
    if ids != [] {
      var n := |ids| - 1;
      assert ids == ids[..n] + [ids[n]];
      QueuedExactly(db, ids[..n], legible);
    }
  }

  /** The jobs a pass has to place. */
  function QueueOf(s: Server, w: World): seq<QueuedJob> {
    var ids := InStates(s.db, w.order, DISPATCHABLE_STATES);
    InStatesMembers(s.db, w.order, DISPATCHABLE_STATES);
    QueuedOf(s.db, ids, w.legible)
  }

  lemma QueueIs(s: Server, w: World, q: QueuedJob)
    ensures q in QueueOf(s, w) <==>
      && q.id in InStates(s.db, w.order, DISPATCHABLE_STATES) && w.legible(q.id)
      && q.id in s.db.jobs && q == Queued(s.db, q.id)
  {
    var ids := InStates(s.db, w.order, DISPATCHABLE_STATES);
    InStatesMembers(s.db, w.order, DISPATCHABLE_STATES);
    QueuedExactly(s.db, ids, w.legible);
  }

  /** Between the beginning of the round and its end there was room for it on that agent. */
  ghost predicate HadRoom(before: Ledger, after: Ledger, a: AgentId, j: JobId, g: Grant) {
    exists l :: Grown(before, l) && Grown(l, after) && HasRoom(l, a, j, g)
  }

  /** What a pass places waits in the queue, can be planned, and goes to an agent of the fleet that takes work, may
   *  install, has all the job asks for, and had room.
   */
  lemma PlacementsGoWhereTheyFit(s: Server, w: World, o: Outcome)
    requires o in RoundOf(s, w)
    ensures o.Placed? && o.job in s.db.jobs && s.db.jobs[o.job].state in {Pending, Eligible} && w.legible(o.job)
    ensures exists a | a in w.fleet :: a.id == o.agent && Takes(a, s.db.jobs[o.job])
    ensures HadRoom(s.ledger, RoundLedger(s, w), o.agent, o.job, s.db.jobs[o.job].needs)
  {
    var qs := QueueOf(s, w);
    var os := Outcomes(w.fleet, qs, s.ledger);
    PlacementsAreOutcomes(os);
    var i :| 0 <= i < |os| && os[i] == o;
    EveryOutcomeIsJustified(w.fleet, qs, s.ledger, i);
    QueueIs(s, w, qs[i]);
    InStatesMembers(s.db, w.order, DISPATCHABLE_STATES);
    var l := LedgerAfter(w.fleet, qs[..i], s.ledger);
    RoundKeepsLimits(w.fleet, qs[..i], s.ledger);
    LedgerGrows(w.fleet, qs, s.ledger, i);
    var k :| 0 <= k < |w.fleet| && w.fleet[k].id == o.agent && FitFor(w.fleet[k], qs[i])
      && HasRoom(l, o.agent, qs[i].id, qs[i].Needs());
    assert Takes(w.fleet[k], s.db.jobs[o.job]);
  }

  /** The rows of a state fit the window a query reads. */
  predicate Fits(db: Db, order: seq<JobId>, state: JobState) { |Among(db, order, state)| <= QUEUE_WINDOW }

  lemma WaitingIsQueued(s: Server, w: World, j: JobId)
    requires NoRepeats(w.order) && Fits(s.db, w.order, Pending) && Fits(s.db, w.order, Eligible)
    requires j in w.order && j in s.db.jobs && s.db.jobs[j].state in {Pending, Eligible} && w.legible(j)
    ensures Queued(s.db, j) in QueueOf(s, w)
  {
    forall t | t in DISPATCHABLE_STATES && j in Among(s.db, w.order, t) ensures j in InState(s.db, w.order, t) {
      WindowIsComplete(s.db, w.order, t);
    }
    InEveryState(s.db, w.order, DISPATCHABLE_STATES, j);
    assert s.db.jobs[j].state in DISPATCHABLE_STATES;
    QueueIs(s, w, Queued(s.db, j));
  }

  /** What a pass does not place, though it waits in the queue and can be planned, no agent of the fleet that takes
   *  work, may install and has all it asks for has room for when the round is over; if the queue fits its window.
   */
  lemma WhatIsLeftHasNoRoom(s: Server, w: World, j: JobId, a: AgentEntry)
    requires NoRepeats(w.order) && Fits(s.db, w.order, Pending) && Fits(s.db, w.order, Eligible)
    requires j in w.order && j in s.db.jobs && s.db.jobs[j].state in {Pending, Eligible} && w.legible(j)
    requires forall o | o in RoundOf(s, w) :: o.job != j
    requires a in w.fleet && Takes(a, s.db.jobs[j])
    ensures !HasRoom(RoundLedger(s, w), a.id, j, s.db.jobs[j].needs)
  {
    var qs := QueueOf(s, w);
    var os := Outcomes(w.fleet, qs, s.ledger);
    WaitingIsQueued(s, w, j);
    var i :| 0 <= i < |qs| && qs[i] == Queued(s.db, j);
    var k :| 0 <= k < |w.fleet| && w.fleet[k] == a;
    EveryOutcomeIsJustified(w.fleet, qs, s.ledger, i);
    PlacementsAreOutcomes(os);
    assert os[i].Held?;
    RoundIsMaximal(w.fleet, qs, s.ledger, i, k);
  }

  /** Of all the work agents hold, if it fits the window, a pass takes back exactly what belongs to those not heard
   *  from.
   */
  lemma AllSilentWorkIsTakenBack(s: Server, w: World, j: JobId)
    requires Sound(s.db) && Listed(s.db, w) && FitsWindow(s.db, w.order)
    requires s.db.In(j, Assigned) || s.db.In(j, Running) || s.db.In(j, Verifying) || s.db.In(j, Committing)
    ensures HeardFrom(s.db, j, w) ==> Untouched(s.db, Reconciled(s, w).db, j)
    ensures !HeardFrom(s.db, j, w) ==> TakenBack(s.db.jobs[j], Reconciled(s, w).db, j)
  {
    HeldAreListed(s.db, w.order, j);
    ReconciledTakesBackExactlyTheSilent(s, w, j);
  }

  lemma ReconcilingAssignsNothing(s: Server, w: World, j: JobId)
    requires Sound(s.db) && Listed(s.db, w) && Reconciled(s, w).db.In(j, Assigned)
    ensures s.db.In(j, Assigned) && Reconciled(s, w).db.jobs[j] == s.db.jobs[j]
  {
    ReconciledKeepsSound(s, w);
    if j in InStates(s.db, w.order, HELD_STATES) { ReconciledTakesBackExactlyTheSilent(s, w, j); }
  }

  lemma HeardFromIsLeftAlone(s: Server, w: World, j: JobId)
    requires Sound(s.db) && Listed(s.db, w) && s.db.Holds(j) && HeardFrom(s.db, j, w)
    ensures Untouched(s.db, Reconciled(s, w).db, j)
  {
    if j in InStates(s.db, w.order, HELD_STATES) {
      ReconciledTakesBackExactlyTheSilent(s, w, j);
    } else {
      ReconciledKeepsSound(s, w);
    }
  }

  /** A pass that is paused, or that sees no agent, starts nothing new: it grants no reservation and hands nobody a
   *  job; and it stops nothing either that another pass would have left running.
   */
  lemma APausedPassStartsNothing(s: Server, w: World, lim: AgentLimits, j: JobId)
    requires Sound(s.db) && Listed(s.db, w) && (w.paused || w.fleet == [])
    ensures Ticked(s, w, lim).db.intents.Keys == s.db.intents.Keys
    ensures Ticked(s, w, lim).db.In(j, Assigned) ==>
      s.db.In(j, Assigned) && Ticked(s, w, lim).db.jobs[j] == s.db.jobs[j]
    ensures s.db.Holds(j) && HeardFrom(s.db, j, w) ==>
      j in Ticked(s, w, lim).db.jobs && Ticked(s, w, lim).db.jobs[j] == s.db.jobs[j]
  {
    ReconciledKeepsKeys(s, w);
    var r := Reconciled(s, w);
    SweptIs(r.db, LiveIntents(r.db, w.ages));
    assert Ticked(s, w, lim).db.jobs == r.db.jobs && Ticked(s, w, lim).db.intents.Keys == r.db.intents.Keys;
    if r.db.In(j, Assigned) { ReconcilingAssignsNothing(s, w, j); }
    if s.db.Holds(j) && HeardFrom(s.db, j, w) { HeardFromIsLeftAlone(s, w, j); }
  }
}
