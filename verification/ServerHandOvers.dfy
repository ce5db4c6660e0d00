/** How often a job is handed to an agent, over any run. */
module ServerHandOvers {
  import opened Jobs
  import opened Capacity
  import opened Store
  import opened Dispatch
  import opened Server
  import opened ServerInvariant
  import opened ServerPass
  import opened ServerRuns
  import opened ServerGuarantees

  /** This placement assigns its job: every write up to the assignment is accepted.  Whether the agent is
   *  then reached does not matter; if it is not, an attempt has been spent all the same.
   */
  predicate HandsOver(db: Db, j: JobId, seen: JobRow, a: AgentId, site: Site) {
    && site.ready && site.epoch.Some?
    && var granted := GrantIntent(db, IntentId(j, seen.attempt), a, site.epoch.value, seen.path);
       && granted.Some?
       && var ready := if seen.state == Pending then Transition(granted.value, j, Pending, Eligible) else granted;
          ready.Some? && Assign(ready.value, j, a, site.epoch.value).Some?
  }

  /** How many of a round's placements hand the job over. */
  function HandOversOf(s: Server, seen: Db, os: seq<Outcome>, sites: JobId -> Site, j: JobId): nat
    requires forall o | o in os :: o.Placed? && o.job in seen.jobs
  {
    if os == [] then 0
    else
      var n := |os| - 1;
      var m := PlacedAll(s, seen, os[..n], sites).db;
      HandOversOf(s, seen, os[..n], sites, j)
      + if os[n].job == j && HandsOver(m, j, seen.jobs[j], os[n].agent, sites(j)) then 1 else 0
  }

  /** How many hand-overs of the job one event makes. */
  function HandOvers(s: Server, e: Event, lim: AgentLimits, j: JobId): nat {
    if !e.Tick? || e.w.fleet == [] || e.w.paused then 0
    else
      var p := Prepared(s, e.w, lim);
      HandOversOf(Server(p.db, RoundLedger(p, e.w)), p.db, RoundOf(p, e.w), e.w.sites, j)
  }

  function HandOversInAll(s: Server, es: seq<Event>, lim: AgentLimits, j: JobId): nat {
    if es == [] then 0
    else HandOversInAll(s, es[..|es| - 1], lim, j) + HandOvers(Run(s, es[..|es| - 1], lim), es[|es| - 1], lim, j)
  }

  // ---- One placement

  lemma HandsOverExactlyWhen(db: Db, j: JobId, seen: JobRow, a: AgentId, site: Site)
    requires Waiting(db, j, seen) && db.Current(j) !in db.intents
    ensures HandsOver(db, j, seen, a, site) <==> site.ready && site.epoch.Some? && !db.PathTaken(seen.path)
  {
  }

  lemma PlacementCounts(db: Db, j: JobId, seen: JobRow, a: AgentId, site: Site, k: JobId)
    requires Sound(db) && Waiting(db, j, seen)
    ensures
      var e := PlacedOn(db, j, seen, a, site).0;
      && |e.IntentsOf(k)| == |db.IntentsOf(k)| + (if k == j && HandsOver(db, j, seen, a, site) then 1 else 0)
      && (!HandsOver(db, j, seen, a, site) ==> e == db)
  {
    PlacedOnIs(db, j, seen, a, site);
    var e := PlacedOn(db, j, seen, a, site).0;
    HandsOverExactlyWhen(db, j, seen, a, site);
    if HandsOver(db, j, seen, a, site) {
      assert e.intents.Keys == db.intents.Keys + {db.Current(j)};
      OneMoreIntent(db, e, db.Current(j), k);
    }
  }

  lemma OneMoreIntent(db: Db, e: Db, i: IntentId, k: JobId)
    requires e.intents.Keys == db.intents.Keys + {i} && i !in db.intents
    ensures |e.IntentsOf(k)| == |db.IntentsOf(k)| + if k == i.job then 1 else 0
  {
    if k == i.job {
      assert e.IntentsOf(k) == db.IntentsOf(k) + {i};
    } else {
      assert e.IntentsOf(k) == db.IntentsOf(k);
    }
  }

  // ---- One round

  lemma {:induction false} RoundCounts(s: Server, os: seq<Outcome>, sites: JobId -> Site, j: JobId)
    requires Sound(s.db) && Round(s.db, os)
    ensures |PlacedAll(s, s.db, os, sites).db.IntentsOf(j)| == |s.db.IntentsOf(j)| + HandOversOf(s, s.db, os, sites, j)
  {
    if os != [] {
      var n := |os| - 1;
      NextIsWaiting(s, os, sites);
      RoundCounts(s, os[..n], sites, j);
      var m := PlacedAll(s, s.db, os[..n], sites).db;
      PlacementCounts(m, os[n].job, s.db.jobs[os[n].job], os[n].agent, sites(os[n].job), j);
    }
  }

  /** A round hands a job over once at most, and one it does not hand over it does not touch. */
  lemma {:induction false} RoundHandsOverOnce(s: Server, os: seq<Outcome>, sites: JobId -> Site, j: JobId)
    requires Sound(s.db) && Round(s.db, os)
    ensures HandOversOf(s, s.db, os, sites, j) <= if InRound(os, j) then 1 else 0
    ensures HandOversOf(s, s.db, os, sites, j) == 0 ==> Untouched(s.db, PlacedAll(s, s.db, os, sites).db, j)
  {
    if os != [] {
      var n := |os| - 1;
      NextIsWaiting(s, os, sites);
      RoundHandsOverOnce(s, os[..n], sites, j);
      var m := PlacedAll(s, s.db, os[..n], sites).db;
      var row := s.db.jobs[os[n].job];
      PlacementCounts(m, os[n].job, row, os[n].agent, sites(os[n].job), j);
      PlacedOnIsSound(m, os[n].job, row, os[n].agent, sites(os[n].job));
      if os[n].job == j {
        assert !InRound(os[..n], j);
      } else {
        assert InRound(os[..n], j) ==> InRound(os, j);
      }
    }
  }

  // ---- One event

  lemma PreparedIsARound(s: Server, w: World, lim: AgentLimits)
    requires Sound(s.db) && Listed(s.db, w)
    ensures
      var p := Prepared(s, w, lim);
      Sound(p.db) && p.db.intents.Keys == s.db.intents.Keys && Round(p.db, RoundOf(p, w))
  {
    PreparedIsSound(s, w, lim);
    ReconciledKeepsKeys(s, w);
    var r := Reconciled(s, w);
    SweptIs(r.db, LiveIntents(r.db, w.ages));
    RoundPlacesOnce(Prepared(s, w, lim), w);
  }

  lemma SilenceAssignsNothing(db: Db, j: JobId, w: World)
    requires j in db.jobs && AfterSilence(db, j, w).In(j, Assigned)
    ensures AfterSilence(db, j, w).jobs[j] == db.jobs[j]
  {
  }

  lemma ReconcilingAssignsNothing(s: Server, w: World, j: JobId)
    requires Sound(s.db) && Listed(s.db, w) && j in s.db.jobs && Reconciled(s, w).db.In(j, Assigned)
    ensures Reconciled(s, w).db.jobs[j] == s.db.jobs[j]
  {
    ReconciledAt(s, w, j);
    if AfterSilence(s.db, j, w).In(j, Assigned) { SilenceAssignsNothing(s.db, j, w); }
  }

  /** Reconciling and sweeping leave no job assigned that was not. */
  lemma PreparedAssignsNothing(s: Server, w: World, lim: AgentLimits, j: JobId)
    requires Sound(s.db) && Listed(s.db, w) && Prepared(s, w, lim).db.In(j, Assigned)
    ensures j in s.db.jobs && Prepared(s, w, lim).db.jobs[j] == s.db.jobs[j]
  {
    var r := Reconciled(s, w);
    SweptIs(r.db, LiveIntents(r.db, w.ages));
    ReconciledKeepsKeys(s, w);
    ReconcilingAssignsNothing(s, w, j);
  }

  lemma MessageKeepsIds(s: Server, e: Event, lim: AgentLimits)
    requires !e.Tick?
    ensures Next(s, e, lim).db.intents.Keys == s.db.intents.Keys
  {
  }

  /** An event hands a job over as often as it uses a new intent id for it, which is once at most. */
  lemma EventCounts(s: Server, e: Event, lim: AgentLimits, j: JobId)
    requires Sound(s.db) && Legal(s.db, e)
    ensures HandOvers(s, e, lim, j) <= 1
    ensures |Next(s, e, lim).db.IntentsOf(j)| == |s.db.IntentsOf(j)| + HandOvers(s, e, lim, j)
  {
    if e.Tick? {
      PreparedIsARound(s, e.w, lim);
      var p := Prepared(s, e.w, lim);
      if e.w.fleet != [] && !e.w.paused {
        RoundCounts(Server(p.db, RoundLedger(p, e.w)), RoundOf(p, e.w), e.w.sites, j);
        RoundHandsOverOnce(Server(p.db, RoundLedger(p, e.w)), RoundOf(p, e.w), e.w.sites, j);
      }
    } else {
      MessageKeepsIds(s, e, lim);
    }
  }

  lemma MessageAssignsNothing(s: Server, e: Event, lim: AgentLimits, j: JobId)
    requires !e.Tick? && Next(s, e, lim).db.In(j, Assigned)
    ensures j in s.db.jobs && Next(s, e, lim).db.jobs[j] == s.db.jobs[j]
  {
    match e
    case Result(a, epoch, k, passed) => ResultAssignsNothing(s.db, a, epoch, k, passed, j);
    case CommitReport(a, epoch, i, r) => ReportAssignsNothing(s.db, a, epoch, i, r, j);
    case _ =>
  }

  lemma ResultAssignsNothing(db: Db, a: AgentId, epoch: nat, k: JobId, passed: bool, j: JobId)
    requires ResultIn(db, a, epoch, k, passed).In(j, Assigned)
    ensures j in db.jobs && ResultIn(db, a, epoch, k, passed).jobs[j] == db.jobs[j]
  {
  }

  lemma ReportAssignsNothing(db: Db, a: AgentId, epoch: nat, i: IntentId, r: Report, j: JobId)
    requires ReportIn(db, a, epoch, i, r).In(j, Assigned)
    ensures j in db.jobs && ReportIn(db, a, epoch, i, r).jobs[j] == db.jobs[j]
  {
  }

  /** Nothing but a hand-over leaves a job assigned that was not assigned in just this way before. */
  lemma AssignedMeansHandedOver(s: Server, e: Event, lim: AgentLimits, j: JobId)
    requires Sound(s.db) && Legal(s.db, e) && Next(s, e, lim).db.In(j, Assigned)
    ensures HandOvers(s, e, lim, j) == 1 || (j in s.db.jobs && Next(s, e, lim).db.jobs[j] == s.db.jobs[j])
  {
    EventCounts(s, e, lim, j);
    if HandOvers(s, e, lim, j) == 0 {
      if e.Tick? {
        var p := Prepared(s, e.w, lim);
        if e.w.fleet != [] && !e.w.paused {
          PreparedIsARound(s, e.w, lim);
          RoundHandsOverOnce(Server(p.db, RoundLedger(p, e.w)), RoundOf(p, e.w), e.w.sites, j);
        }
        PreparedAssignsNothing(s, e.w, lim, j);
      } else {
        MessageAssignsNothing(s, e, lim, j);
      }
    }
  }

  // ---- A run

  /** Over every run: each hand-over uses an intent id of its own, nothing else uses one, and so a job is
   *  handed over no more often than it may be attempted.
   */
  lemma {:induction false} HandOversWithinBudget(s: Server, es: seq<Event>, lim: AgentLimits, j: JobId)
    requires Sound(s.db) && AllLegal(s, es, lim)
    ensures |Run(s, es, lim).db.IntentsOf(j)| == |s.db.IntentsOf(j)| + HandOversInAll(s, es, lim, j)
    ensures j in Run(s, es, lim).db.jobs ==>
      HandOversInAll(s, es, lim, j) <= if Run(s, es, lim).db.jobs[j].maxAttempts > 1
                                       then Run(s, es, lim).db.jobs[j].maxAttempts else 1
    ensures j !in Run(s, es, lim).db.jobs ==> HandOversInAll(s, es, lim, j) == 0
  {
    RunIsSound(s, es, lim);
    if es != [] {
      var n := |es| - 1;
      LegalSoFar(s, es, lim);
      RunIsSound(s, es[..n], lim);
      HandOversWithinBudget(s, es[..n], lim, j);
      EventCounts(Run(s, es[..n], lim), es[n], lim, j);
    }
    var db := Run(s, es, lim).db;
    if j in db.jobs { AssignmentsWithinBudget(db, j); } else { assert db.IntentsOf(j) == {}; }
  }
}
