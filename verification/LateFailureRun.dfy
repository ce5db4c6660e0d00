/** A run of one agent and the server, from nothing, in which a late failure lets recovery run beside an
 *  install.
 */
module LateFailureRun {
  import opened Optional
  import opened Jobs
  import opened Capability
  import opened Capacity
  import opened Store
  import opened Dispatch
  import opened Server
  import opened ServerInvariant
  import opened ServerPass
  import opened ServerRuns
  import opened AgentServer

  // ---- A pass that hands out the only job

  /** One job is waiting, nothing else is stored. */
  function OneJob(j: JobId, path: Path): Db {
    var needs := Grant(JobClass.Audio, Small);
    Db(map[j := JobRow(Pending, 0, DEFAULT_MAX_ATTEMPTS, None, 0, path, needs, [], BucketKey([]))], map[])
  }

  /** What the pass sees: one agent, connected under an epoch, that accepts work and may install. */
  predicate FirstPass(w: World, j: JobId, me: AgentId, epoch: nat) {
    && w.order == [j] && w.ages == [] && !w.paused && w.legible(j) && w.sites(j) == Site(true, Some(epoch), true)
    && |w.fleet| == 1 && w.fleet[0].id == me && w.fleet[0].accepting && w.fleet[0].commitEligible
  }

  predicate HasSlot(lim: AgentLimits) { lim.totalSlots > 0 && lim.ClassLimit(JobClass.Audio) > 0 }

  lemma OneJobIsSound(j: JobId, path: Path)
    ensures Sound(OneJob(j, path))
  {
  }

  lemma InStateOfOne(db: Db, j: JobId, s: JobState)
    ensures InState(db, [j], s) == if db.In(j, s) then [j] else []
  {
    assert [j][..0] == [];
    assert InState(db, [], s) == [];
  }

  lemma NothingIsHeld(j: JobId, path: Path)
    ensures InStates(OneJob(j, path), [j], HELD_STATES) == []
  {
    var db, h := OneJob(j, path), HELD_STATES;
    InStateOfOne(db, j, Assigned);
    InStateOfOne(db, j, Running);
    InStateOfOne(db, j, Verifying);
    InStateOfOne(db, j, Committing);
    assert h[..3][..2] == h[..2] && h[..2][..1] == h[..1] && h[..1][..0] == [];
    assert InStates(db, [j], h[..1]) == [];
    assert InStates(db, [j], h[..2]) == [];
    assert InStates(db, [j], h[..3]) == [];
  }

  lemma OneIsWaiting(j: JobId, path: Path)
    ensures InStates(OneJob(j, path), [j], DISPATCHABLE_STATES) == [j]
  {
    var db, d := OneJob(j, path), DISPATCHABLE_STATES;
    InStateOfOne(db, j, Pending);
    InStateOfOne(db, j, Eligible);
    assert d[..1][..0] == [];
    assert InStates(db, [j], d[..1]) == [j];
  }

  lemma NothingToPrepare(s: Server, w: World, lim: AgentLimits, j: JobId, path: Path, me: AgentId, epoch: nat)
    requires s.db == OneJob(j, path) && FirstPass(w, j, me, epoch)
    ensures Prepared(s, w, lim) == Server(s.db, Emptied(Limited(s.ledger, me, lim)))
  {
    NothingIsHeld(j, path);
    assert Reconciled(s, w) == s;
    assert Swept(s.db, LiveIntents(s.db, w.ages)) == s.db;
    assert w.fleet[..0] == [];
    assert AllLimited(s.ledger, w.fleet, lim) == Limited(s.ledger, me, lim);
    assert Rebuilt(s.ledger, s.db, w.order, w.fleet, lim) == Emptied(Limited(s.ledger, me, lim));
  }

  lemma TheOneAgentTakesIt(a: AgentEntry, job: QueuedJob, l: Ledger)
    requires a.accepting && a.commitEligible && job.requirements == [] && job.excludedAgents == []
    requires Obstacle(l, a.id, job.id, job.Needs()) == None
    ensures Placements(Outcomes([a], [job], l)) == [Placed(job.id, a.id)]
  {
    assert [a][..0] == [] && [job][..0] == [];
    assert AskAll([], job, l) == Search(None, None, false);
    assert Capable(a, job) && Admits(a, []) == None;
    assert AskAll([a], job, l).best == Some(a.id);
    var o := Placed(job.id, a.id);
    assert LedgerAfter([a], [], l) == l;
    assert Outcomes([a], [job], l) == [o];
    assert [o][..0] == [];
  }

  function TheJob(j: JobId): QueuedJob { QueuedJob(j, JobClass.Audio, Small, [], BucketKey([]), []) }

  lemma TheQueueIsOne(j: JobId, path: Path, legible: JobId -> bool)
    requires legible(j)
    ensures QueuedOf(OneJob(j, path), [j], legible) == [TheJob(j)]
  {
    assert [j][..0] == [];
    assert QueuedOf(OneJob(j, path), [], legible) == [];
  }

  lemma ThereIsRoom(l: Ledger, me: AgentId, lim: AgentLimits, j: JobId)
    requires HasSlot(lim)
    ensures Obstacle(Emptied(Limited(l, me, lim)), me, j, Grant(JobClass.Audio, Small)) == None
  {
    var m := Emptied(Limited(l, me, lim));
    assert m.At(me) == map[] && OfClass(m.At(me), JobClass.Audio) == {} && !m.HeldAnywhere(j);
  }

  lemma TheRoundIsOne(s: Server, w: World, lim: AgentLimits, j: JobId, path: Path, me: AgentId, epoch: nat)
    requires s.db == OneJob(j, path) && FirstPass(w, j, me, epoch) && HasSlot(lim)
    ensures RoundOf(Prepared(s, w, lim), w) == [Placed(j, me)]
  {
    NothingToPrepare(s, w, lim, j, path, me, epoch);
    OneIsWaiting(j, path);
    var l := Emptied(Limited(s.ledger, me, lim));
    var job := TheJob(j);
    TheQueueIsOne(j, path, w.legible);
    ThereIsRoom(s.ledger, me, lim, j);
    assert w.fleet == [w.fleet[0]];
    TheOneAgentTakesIt(w.fleet[0], job, l);
  }

  /** The pass hands the job to the agent. */
  lemma ThePassHandsItOver(s: Server, w: World, lim: AgentLimits, j: JobId, path: Path, me: AgentId, epoch: nat)
    requires s.db == OneJob(j, path) && FirstPass(w, j, me, epoch) && HasSlot(lim)
    ensures Ticked(s, w, lim).db == HandedOver(s.db, j, me, epoch)
  {
    NothingToPrepare(s, w, lim, j, path, me, epoch);
    TheRoundIsOne(s, w, lim, j, path, me, epoch);
    OneJobIsSound(j, path);
    PlacedOnIs(s.db, j, s.db.jobs[j], me, w.sites(j));
    var p := Prepared(s, w, lim);
    var os := [Placed(j, me)];
    assert os[..0] == [];
    assert PlacedAll(Server(p.db, RoundLedger(p, w)), p.db, [], w.sites) == Server(p.db, RoundLedger(p, w));
  }

  // ---- The run

  /** A store with no work and an agent that has just started. */
  function Fresh(l: Ledger): System {
    System(Server(Db(map[], map[]), l), Agent(Down, false, map[], {}, {}, {}, map[]))
  }

  lemma TwoSteps(w: System, s: Step, t: Step, me: AgentId, lim: AgentLimits)
    requires Allowed(w, s, me) && Allowed(Do(w, s, me, lim), t, me)
    ensures Possible(w, [s, t], me, lim) && AfterAll(w, [s, t], me, lim) == Do(Do(w, s, me, lim), t, me, lim)
  {
    assert [s, t][1..] == [t] && [t][1..] == [];
    var u := Do(w, s, me, lim);
    var v := Do(u, t, me, lim);
    assert Possible(v, [], me, lim) && AfterAll(v, [], me, lim) == v;
    assert Possible(u, [t], me, lim) && AfterAll(u, [t], me, lim) == v;
  }

  lemma {:induction false} InTwo(w: System, a: seq<Step>, b: seq<Step>, me: AgentId, lim: AgentLimits)
    requires Possible(w, a, me, lim) && Possible(AfterAll(w, a, me, lim), b, me, lim)
    ensures Possible(w, a + b, me, lim) && AfterAll(w, a + b, me, lim) == AfterAll(AfterAll(w, a, me, lim), b, me, lim)
    decreases |a|
  {
    if a == [] {
      assert a + b == b;
    } else {
      assert (a + b)[0] == a[0] && (a + b)[1..] == a[1..] + b;
      InTwo(Do(w, a[0], me, lim), a[1..], b, me, lim);
    }
  }

  /** A job is created, and the agent registers. */
  function Admitted(j: JobId, path: Path): seq<Step> {
    [AtServer(NewJob(j, path, Grant(JobClass.Audio, Small), [])), ReadJournal] + [Register, DisowningDone]
  }

  function Connected(l: Ledger, j: JobId, path: Path): System {
    System(Server(OneJob(j, path), l), Agent(Open, true, map[], {}, {}, {}, map[]))
  }

  /** ... and opens its stream. */
  function Connecting(j: JobId, path: Path): seq<Step> { Admitted(j, path) + [StartingDone] }

  lemma TheAgentRegisters(l: Ledger, j: JobId, path: Path, me: AgentId, lim: AgentLimits)
    ensures Possible(Fresh(l), Admitted(j, path), me, lim)
    ensures AfterAll(Fresh(l), Admitted(j, path), me, lim)
      == System(Server(OneJob(j, path), l), Agent(Starting, true, map[], {}, {}, {}, map[]))
  {
    var w := Fresh(l);
    var e := NewJob(j, path, Grant(JobClass.Audio, Small), []);
    assert Next(w.server, e, lim).db == OneJob(j, path);
    TwoSteps(w, AtServer(e), ReadJournal, me, lim);
    var v := Do(Do(w, AtServer(e), me, lim), ReadJournal, me, lim);
    assert DisownedBy(v.server.db, map[]) == {};
    TwoSteps(v, Register, DisowningDone, me, lim);
    InTwo(w, [AtServer(e), ReadJournal], [Register, DisowningDone], me, lim);
  }

  lemma TheAgentConnects(l: Ledger, j: JobId, path: Path, me: AgentId, lim: AgentLimits)
    ensures Possible(Fresh(l), Connecting(j, path), me, lim)
    ensures AfterAll(Fresh(l), Connecting(j, path), me, lim) == Connected(l, j, path)
  {
    TheAgentRegisters(l, j, path, me, lim);
    var v := AfterAll(Fresh(l), Admitted(j, path), me, lim);
    assert [StartingDone][1..] == [] && Possible(Do(v, StartingDone, me, lim), [], me, lim);
    InTwo(Fresh(l), Admitted(j, path), [StartingDone], me, lim);
  }

  /** A pass hands the job over, and its encode passes. */
  function Encoding(w: World, j: JobId, me: AgentId, epoch: nat): seq<Step> {
    [AtServer(Tick(w)), AtServer(Result(me, epoch, j, true))]
  }

  /** The job on its first attempt, with its intent, in a state. */
  function HeldDb(j: JobId, path: Path, me: AgentId, epoch: nat, s: JobState): Db {
    var row := OneJob(j, path).jobs[j].(state := s, agent := Some(me), epoch := epoch);
    Db(map[j := row], map[IntentId(j, 0) := IntentRow(me, epoch, path, true)])
  }

  lemma TheEncodePasses(l: Ledger, w: World, j: JobId, path: Path, me: AgentId, epoch: nat, lim: AgentLimits)
    requires FirstPass(w, j, me, epoch) && HasSlot(lim)
    ensures Possible(Connected(l, j, path), Encoding(w, j, me, epoch), me, lim)
    ensures
      var v := AfterAll(Connected(l, j, path), Encoding(w, j, me, epoch), me, lim);
      v.server.db == HeldDb(j, path, me, epoch, Verifying) && v.agent == Connected(l, j, path).agent
  {
    var c := Connected(l, j, path);
    OneJobIsListed(w, j, path, me, epoch);
    ThePassHandsItOver(c.server, w, lim, j, path, me, epoch);
    ThePassedResult(j, path, me, epoch);
    TwoSteps(c, AtServer(Tick(w)), AtServer(Result(me, epoch, j, true)), me, lim);
  }

  lemma OneJobIsListed(w: World, j: JobId, path: Path, me: AgentId, epoch: nat)
    requires FirstPass(w, j, me, epoch)
    ensures Listed(OneJob(j, path), w)
  {
  }

  lemma MovedOn(j: JobId, path: Path, me: AgentId, epoch: nat, from: JobState, to: JobState)
    requires CanTransition(from, to)
    ensures Transition(HeldDb(j, path, me, epoch, from), j, from, to) == Some(HeldDb(j, path, me, epoch, to))
  {
    var d, e := HeldDb(j, path, me, epoch, from), HeldDb(j, path, me, epoch, to);
    assert With(d, j, d.jobs[j].(state := to)).jobs == e.jobs;
  }

  lemma ThePassedResult(j: JobId, path: Path, me: AgentId, epoch: nat)
    ensures HandedOver(OneJob(j, path), j, me, epoch) == HeldDb(j, path, me, epoch, Assigned)
    ensures ResultIn(HeldDb(j, path, me, epoch, Assigned), me, epoch, j, true) == HeldDb(j, path, me, epoch, Verifying)
  {
    var h, d := HandedOver(OneJob(j, path), j, me, epoch), HeldDb(j, path, me, epoch, Assigned);
    assert h.jobs == d.jobs && h.intents == d.intents;
    MovedOn(j, path, me, epoch, Assigned, Running);
    MovedOn(j, path, me, epoch, Running, Verifying);
  }

  /** The agent asks, is allowed, and begins to install. */
  function Committed(j: JobId, path: Path, epoch: nat): seq<Step> {
    [AskToCommit(epoch, j), DeliverGrant(j)] + [BeginInstall(IntentId(j, 0)), LogRecord(IntentId(j, 0), path)]
  }

  lemma TheInstallBegins(c: System, j: JobId, path: Path, me: AgentId, epoch: nat, lim: AgentLimits)
    requires c.server.db == HeldDb(j, path, me, epoch, Verifying)
    requires c.agent == Agent(Open, true, map[], {}, {}, {}, map[])
    ensures Possible(c, Committed(j, path, epoch), me, lim)
    ensures
      var v := AfterAll(c, Committed(j, path, epoch), me, lim);
      v.agent.link.Open? && MidInstall(v, IntentId(j, 0), epoch, me)
  {
    var k, d := IntentId(j, 0), c.server.db;
    assert k in d.intents && IntentHeld(d, me, epoch, j);
    MovedOn(j, path, me, epoch, Verifying, Committing);
    assert CommitAsked(d, me, epoch, j) == (HeldDb(j, path, me, epoch, Committing), true);
    TwoSteps(c, AskToCommit(epoch, j), DeliverGrant(j), me, lim);
    var v := Do(Do(c, AskToCommit(epoch, j), me, lim), DeliverGrant(j), me, lim);
    TwoSteps(v, BeginInstall(k), LogRecord(k, path), me, lim);
    InTwo(c, [AskToCommit(epoch, j), DeliverGrant(j)], [BeginInstall(k), LogRecord(k, path)], me, lim);
  }

  /** Steps that are possible, after which a late failure and a reconnect have recovery enabled for a record
   *  whose install is running.
   */
  ghost predicate OverlapsAfter(w: System, steps: seq<Step>, me: AgentId, lim: AgentLimits, k: IntentId, epoch: nat) {
    && Possible(w, steps, me, lim)
    && var v := AfterAll(w, steps, me, lim);
       var failed := v.(server := Next(v.server, Result(me, epoch, k.job, false), lim));
       var registered := Reconnected(failed, me, lim);
       && LateFailure(v.server.db, me, epoch, k.job)
       && Enabled(registered, RecoverDisowned(k, true)) && IsRunning(registered.agent, k.job)
  }

  lemma MidInstallOverlaps(w: System, steps: seq<Step>, me: AgentId, lim: AgentLimits, k: IntentId, epoch: nat)
    requires Inv(w, me) && Possible(w, steps, me, lim)
    requires AfterAll(w, steps, me, lim).agent.link.Open? && MidInstall(AfterAll(w, steps, me, lim), k, epoch, me)
    ensures OverlapsAfter(w, steps, me, lim, k, epoch)
  {
    RunKeepsInv(w, steps, me, lim);
    LateFailureLetsRecoveryIn(AfterAll(w, steps, me, lim), epoch, k, me, lim);
  }

  /** The steps of the run, one stretch after another. */
  function TheRun(w: World, j: JobId, path: Path, me: AgentId, epoch: nat): seq<Step> {
    Connecting(j, path) + Encoding(w, j, me, epoch) + Committed(j, path, epoch)
  }

  lemma TheRunInstalls(l: Ledger, w: World, j: JobId, path: Path, me: AgentId, epoch: nat, lim: AgentLimits)
    requires FirstPass(w, j, me, epoch) && HasSlot(lim)
    ensures Possible(Fresh(l), TheRun(w, j, path, me, epoch), me, lim)
    ensures
      var v := AfterAll(Fresh(l), TheRun(w, j, path, me, epoch), me, lim);
      v.agent.link.Open? && MidInstall(v, IntentId(j, 0), epoch, me)
  {
    TheAgentConnects(l, j, path, me, lim);
    TheEncodePasses(l, w, j, path, me, epoch, lim);
    var a, b, d := Connecting(j, path), Encoding(w, j, me, epoch), Committed(j, path, epoch);
    InTwo(Fresh(l), a, b, me, lim);
    TheInstallBegins(AfterAll(Fresh(l), a + b, me, lim), j, path, me, epoch, lim);
    InTwo(Fresh(l), a + b, d, me, lim);
  }

  /** From nothing: for every agent with room that may install, every job and every path, there is a run of
   *  legal steps after which one late failure has recovery run beside the job's install.
   */
  lemma AnOverlapIsReached(l: Ledger, entry: AgentEntry, j: JobId, path: Path, epoch: nat, lim: AgentLimits)
    requires HasSlot(lim) && entry.accepting && entry.commitEligible
    ensures exists steps :: OverlapsAfter(Fresh(l), steps, entry.id, lim, IntentId(j, 0), epoch)
  {
    var me := entry.id;
    var w := World({}, map[], 0, [j], [], [entry], false, _ => true, _ => Site(true, Some(epoch), true));
    TheRunInstalls(l, w, j, path, me, epoch, lim);
    FreshStartFits(l, me);
    MidInstallOverlaps(Fresh(l), TheRun(w, j, path, me, epoch), me, lim, IntentId(j, 0), epoch);
  }
}
