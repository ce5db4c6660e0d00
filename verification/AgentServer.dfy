/** One agent and the server, with everything between them that can be late or lost.
 *
 *  The agent's installs run beside its connection: the stream may drop, the process may restart, and a
 *  reconnect may come while an install is between its two renames.  Recovery, whether of records the
 *  server disowns or of everything at startup, must never touch a record whose install is running.
 */
module AgentServer {
  import opened Jobs
  import opened Capacity
  import opened Store
  import opened Server
  import opened ServerInvariant
  import opened ServerRuns
  import opened ServerGuarantees

  /** Where a session is: not connected; about to register, with the records it has read from the journal;
   *  resolving those the server disowned; resolving everything, once per process; or reading the stream.
   */
  datatype Link =
    | Down
    | Registering(replayed: map<IntentId, Path>)
    | Disowning(disowned: set<JobId>)
    | Starting
    | Open

  /** What is said of the install an intent was for. */
  datatype Word = Word(intent: IntentId, says: Report)

  /** The agent, and the messages on their way. `grants` are on the wire, `permits` have reached an
   *  execution that waits, `running` is installing, `reports` are on the wire back.
   */
  datatype Agent = Agent(
    link: Link,
    recovered: bool,
    journal: map<IntentId, Path>,
    grants: set<JobId>,
    permits: set<JobId>,
    running: set<IntentId>,
    reports: map<JobId, Word>)
  {
    /** The records on their way to the server with a registration. */
    function Replayed(): map<IntentId, Path> { if link.Registering? then link.replayed else map[] }
  }

  datatype System = System(server: Server, agent: Agent)

  datatype Step =
    | AtServer(e: Event)
    | AskToCommit(epoch: nat, j: JobId)
    | DeliverGrant(j: JobId)
    | LoseGrant(j: JobId)
    | BeginInstall(k: IntentId)
    | LogRecord(k: IntentId, path: Path)
    | ClearRecord(k: IntentId)
    | FinishInstall(k: IntentId, says: Report)
    | DeliverReport(epoch: nat, i: IntentId, r: Report)
    | LoseReport(j: JobId)
    | DropStream
    | RestartAgent
    | ReadJournal
    | Register
    | RecoverDisowned(k: IntentId, resolved: bool)
    | DisowningDone
    | RecoverAtStartup(k: IntentId, resolved: bool)
    | StartingDone

  /** Whether the agent and the wire are where a step needs them. */
  predicate Enabled(w: System, s: Step) {
    match s
    case AtServer(_) => true
    case AskToCommit(_, _) => true
    case DeliverGrant(j) => w.agent.link.Open? && j in w.agent.grants
    case LoseGrant(j) => true
    case BeginInstall(k) => k.job in w.agent.permits
    case LogRecord(k, _) => k in w.agent.running
    case ClearRecord(k) => k in w.agent.running
    case FinishInstall(k, _) => k in w.agent.running
    case DeliverReport(_, i, r) => i.job in w.agent.reports && w.agent.reports[i.job] == Word(i, r)
    case LoseReport(_) => true
    case DropStream => true
    case RestartAgent => true
    case ReadJournal => w.agent.link.Down?
    case Register => w.agent.link.Registering?
    case RecoverDisowned(k, _) => w.agent.link.Disowning? && k in w.agent.journal && k.job in w.agent.link.disowned
    case DisowningDone => w.agent.link.Disowning?
    case RecoverAtStartup(k, _) => w.agent.link.Starting? && k in w.agent.journal
    case StartingDone => w.agent.link.Starting?
  }

  /** The jobs of the replayed records that the server finds neither by job nor by path. */
  function DisownedBy(db: Db, replayed: map<IntentId, Path>): set<JobId> {
    set k | k in replayed && Disowned(db, k.job, replayed[k]) :: k.job
  }

  function Do(w: System, s: Step, me: AgentId, lim: AgentLimits): System
    requires Enabled(w, s)
  {
    var a := w.agent;
    match s
    case AtServer(e) => w.(server := Next(w.server, e, lim))
    case AskToCommit(epoch, j) =>
      var (db, granted) := CommitAsked(w.server.db, me, epoch, j);
      System(w.server.(db := db), if granted then a.(grants := a.grants + {j}) else a)
    case DeliverGrant(j) => w.(agent := a.(grants := a.grants - {j}, permits := a.permits + {j}))
    case LoseGrant(j) => w.(agent := a.(grants := a.grants - {j}, permits := a.permits - {j}))
    case BeginInstall(k) => w.(agent := a.(permits := a.permits - {k.job}, running := a.running + {k}))
    case LogRecord(k, path) => w.(agent := a.(journal := a.journal[k := path]))
    case ClearRecord(k) => w.(agent := a.(journal := a.journal - {k}))
    case FinishInstall(k, says) =>
      w.(agent := a.(running := a.running - {k}, reports := a.reports[k.job := Word(k, says)]))
    case DeliverReport(epoch, i, r) =>
      System(w.server.(db := ReportIn(w.server.db, me, epoch, i, r)), a.(reports := a.reports - {i.job}))
    case LoseReport(j) => w.(agent := a.(reports := a.reports - {j}))
    case DropStream => w.(agent := a.(link := Down))
    case RestartAgent => w.(agent := a.(link := Down, recovered := false, permits := {}, running := {}))
    case ReadJournal => w.(agent := a.(link := Registering(a.journal)))
    case Register => w.(agent := a.(link := Disowning(DisownedBy(w.server.db, a.link.replayed))))
    case RecoverDisowned(k, resolved) => w.(agent := a.(journal := if resolved then a.journal - {k} else a.journal))
    case DisowningDone => w.(agent := a.(link := if a.recovered then Open else Starting, recovered := true))
    case RecoverAtStartup(k, resolved) => w.(agent := a.(journal := if resolved then a.journal - {k} else a.journal))
    case StartingDone => w.(agent := a.(link := Open))
  }

  /** What the rest of the world is asked to keep to: server events are legal, and this agent's commit
   *  traffic goes over its own wire.
   */
  ghost predicate Allowed(w: System, s: Step, me: AgentId) {
    && Enabled(w, s)
    && (s.AtServer? ==>
          && Legal(w.server.db, s.e)
          && !(s.e.CommitReport? && s.e.a == me) && !(s.e.CommitRequest? && s.e.a == me))
  }

  ghost predicate Possible(w: System, steps: seq<Step>, me: AgentId, lim: AgentLimits)
    decreases |steps|
  {
    steps == [] || (Allowed(w, steps[0], me) && Possible(Do(w, steps[0], me, lim), steps[1..], me, lim))
  }

  function AfterAll(w: System, steps: seq<Step>, me: AgentId, lim: AgentLimits): System
    requires Possible(w, steps, me, lim)
    decreases |steps|
  {
    if steps == [] then w else AfterAll(Do(w, steps[0], me, lim), steps[1..], me, lim)
  }

  // ---- The invariant

  predicate IsRunning(a: Agent, j: JobId) { exists k | k in a.running :: k.job == j }

  /** On its way to an install: allowed to, about to, or at it. */
  predicate Installing(a: Agent, j: JobId) { j in a.grants || j in a.permits || IsRunning(a, j) }

  /** Its destination is reserved for this agent, and the server will not guess about it. */
  predicate Kept(db: Db, j: JobId, me: AgentId) {
    j in db.jobs && OnDisk(db, db.Current(j)) && db.intents[db.Current(j)].agent == me
  }

  /** Was allowed to install once, and so never will be again. */
  predicate Past(db: Db, j: JobId) {
    j in db.jobs && (db.jobs[j].state == Committing || db.jobs[j].state.IsTerminal())
  }

  /** A job is in one place on its way: waiting for permission on the wire, at the agent, or running. */
  predicate InOnePlace(a: Agent, j: JobId) {
    && (j in a.grants ==> j !in a.permits && !IsRunning(a, j) && j !in a.reports)
    && (j in a.permits ==> !IsRunning(a, j) && j !in a.reports)
    && (IsRunning(a, j) ==> j !in a.reports)
  }

  ghost predicate JobFits(w: System, j: JobId, me: AgentId) {
    && (Installing(w.agent, j) ==> Kept(w.server.db, j, me))
    && (j in w.agent.reports ==> Past(w.server.db, j))
    && ((exists k | k in w.agent.journal :: k.job == j) ==> Past(w.server.db, j))
    && ((exists k | k in w.agent.Replayed() :: k.job == j) ==> Past(w.server.db, j))
    && InOnePlace(w.agent, j)
    && (w.agent.link.Disowning? && j in w.agent.link.disowned ==> Past(w.server.db, j) && !Installing(w.agent, j))
  }

  ghost predicate OneInstallPerJob(a: Agent) {
    forall k, l | k in a.running && l in a.running && k.job == l.job :: k == l
  }

  predicate FreshIsIdle(a: Agent) {
    && (a.link.Open? || a.link.Starting? ==> a.recovered)
    && (!a.recovered || a.link.Starting? ==> a.running == {} && a.permits == {})
  }

  ghost predicate Inv(w: System, me: AgentId) {
    && Sound(w.server.db)
    && OneInstallPerJob(w.agent) && FreshIsIdle(w.agent)
    && forall j :: JobFits(w, j, me)
  }

  // ---- The server's steps

  /** A job once allowed to install is never again allowed to, whatever the server is told. */
  lemma PastStaysPast(s: Server, e: Event, lim: AgentLimits, j: JobId)
    requires Sound(s.db) && Legal(s.db, e) && Past(s.db, j)
    ensures Past(Next(s, e, lim).db, j)
  {
    NextIsLater(s, e, lim);
    assert RowLater(s.db.jobs[j], Next(s, e, lim).db.jobs[j]);
    if s.db.jobs[j].state == Committing {
      assert JobSound(s.db, j);
      var i := s.db.Current(j);
      if !(e.CommitReport? && e.i == i && e.a == s.db.intents[i].agent) {
        NextKeepsOnDisk(s, e, lim, i);
      }
    }
  }

  lemma KeptStaysKept(s: Server, e: Event, lim: AgentLimits, j: JobId, me: AgentId)
    requires Sound(s.db) && Legal(s.db, e) && Kept(s.db, j, me) && !(e.CommitReport? && e.a == me)
    ensures Kept(Next(s, e, lim).db, j, me)
  {
    var i := s.db.Current(j);
    NextKeepsOnDisk(s, e, lim, i);
    NextIsLater(s, e, lim);
    NextIsSound(s, e, lim);
    var d := Next(s, e, lim).db;
    assert IntentLater(s.db.intents[i], d.intents[i]);
    assert JobSound(d, j);
  }

  lemma ServerKeepsInv(w: System, e: Event, me: AgentId, lim: AgentLimits)
    requires Inv(w, me) && Allowed(w, AtServer(e), me)
    ensures Inv(Do(w, AtServer(e), me, lim), me)
  {
    NextIsSound(w.server, e, lim);
    var v := Do(w, AtServer(e), me, lim);
    forall j ensures JobFits(v, j, me) {
      assert JobFits(w, j, me);
      if Kept(w.server.db, j, me) { KeptStaysKept(w.server, e, lim, j, me); }
      if Past(w.server.db, j) { PastStaysPast(w.server, e, lim, j); }
    }
  }

  // ---- Permission, and reports

  lemma AskIs(db: Db, me: AgentId, epoch: nat, j: JobId)
    requires Sound(db)
    ensures !CommitAsked(db, me, epoch, j).1 ==> CommitAsked(db, me, epoch, j).0 == db
    ensures CommitAsked(db, me, epoch, j).1 ==> !Past(db, j) && Kept(CommitAsked(db, me, epoch, j).0, j, me)
  {
    if CommitAsked(db, me, epoch, j).1 {
      assert JobSound(db, j);
      var i :| i in db.intents && i.job == j && db.intents[i].live && db.intents[i].agent == me;
      assert i == db.Current(j);
    }
  }

  lemma AskKeepsInv(w: System, epoch: nat, j: JobId, me: AgentId, lim: AgentLimits)
    requires Inv(w, me)
    ensures Inv(Do(w, AskToCommit(epoch, j), me, lim), me)
  {
    var db := w.server.db;
    var e := CommitAsked(db, me, epoch, j).0;
    CommitAskedIsSound(db, me, epoch, j);
    var v := Do(w, AskToCommit(epoch, j), me, lim);
    forall k ensures JobFits(v, k, me) {
      AskFits(w, epoch, j, me, lim, k);
    }
  }

  lemma AskFits(w: System, epoch: nat, j: JobId, me: AgentId, lim: AgentLimits, k: JobId)
    requires Sound(w.server.db) && JobFits(w, k, me)
    ensures JobFits(Do(w, AskToCommit(epoch, j), me, lim), k, me)
  {
    AskIs(w.server.db, me, epoch, j);
    if k != j { AskFitsElsewhere(w, epoch, j, me, lim, k); }
  }

  lemma AskFitsElsewhere(w: System, epoch: nat, j: JobId, me: AgentId, lim: AgentLimits, k: JobId)
    requires JobFits(w, k, me) && k != j
    ensures JobFits(Do(w, AskToCommit(epoch, j), me, lim), k, me)
  {
    AskIsElsewhere(w.server.db, me, epoch, j, k);
  }

  lemma AskIsElsewhere(db: Db, me: AgentId, epoch: nat, j: JobId, k: JobId)
    requires k != j
    ensures Kept(db, k, me) ==> Kept(CommitAsked(db, me, epoch, j).0, k, me)
    ensures Past(db, k) ==> Past(CommitAsked(db, me, epoch, j).0, k)
  {
  }

  /** A report on a job that was allowed to install is never early, and touches no other job. */
  lemma ReportIs(db: Db, epoch: nat, i: IntentId, r: Report, me: AgentId)
    requires Past(db, i.job)
    ensures !EarlyReport(db, me, epoch, i) && Past(ReportIn(db, me, epoch, i, r), i.job)
  {
  }

  lemma ReportIsElsewhere(db: Db, epoch: nat, i: IntentId, r: Report, me: AgentId, k: JobId)
    requires k != i.job
    ensures Kept(db, k, me) ==> Kept(ReportIn(db, me, epoch, i, r), k, me)
    ensures Past(db, k) ==> Past(ReportIn(db, me, epoch, i, r), k)
  {
  }

  lemma ReportKeepsInv(w: System, epoch: nat, i: IntentId, r: Report, me: AgentId, lim: AgentLimits)
    requires Inv(w, me) && Enabled(w, DeliverReport(epoch, i, r))
    ensures Inv(Do(w, DeliverReport(epoch, i, r), me, lim), me)
  {
    assert JobFits(w, i.job, me);
    ReportIs(w.server.db, epoch, i, r, me);
    ReportIsSound(w.server.db, me, epoch, i, r);
    var v := Do(w, DeliverReport(epoch, i, r), me, lim);
    forall j ensures JobFits(v, j, me) {
      assert JobFits(w, j, me);
      ReportFits(w, epoch, i, r, me, lim, j);
    }
  }

  lemma ReportFits(w: System, epoch: nat, i: IntentId, r: Report, me: AgentId, lim: AgentLimits, j: JobId)
    requires Enabled(w, DeliverReport(epoch, i, r)) && JobFits(w, i.job, me) && JobFits(w, j, me)
    ensures JobFits(Do(w, DeliverReport(epoch, i, r), me, lim), j, me)
  {
    if j != i.job {
      ReportIsElsewhere(w.server.db, epoch, i, r, me, j);
    } else {
      ReportIs(w.server.db, epoch, i, r, me);
    }
  }

  // ---- The agent's steps

  /** The server disowns a job exactly for a replayed record of it of which it has no live intent, neither for that
   *  job nor for that destination.
   */
  lemma DisownedExactlyWhen(db: Db, replayed: map<IntentId, Path>, j: JobId)
    ensures j in DisownedBy(db, replayed) <==> exists k | k in replayed ::
      k.job == j && forall i | i in db.intents && db.intents[i].live :: i.job != j && db.intents[i].path != replayed[k]
  {
    forall k | k in replayed
      ensures Disowned(db, k.job, replayed[k]) <==>
        forall i | i in db.intents && db.intents[i].live :: i.job != k.job && db.intents[i].path != replayed[k]
    {
    }
  }

  lemma KeptIsNotDisowned(db: Db, j: JobId, me: AgentId, path: Path)
    ensures Kept(db, j, me) ==> !Disowned(db, j, path)
  {
  }

  /** What the server disowns is not on its way to an install. */
  lemma RegisterKeepsInv(w: System, me: AgentId, lim: AgentLimits)
    requires Inv(w, me) && w.agent.link.Registering?
    ensures Inv(Do(w, Register, me, lim), me)
  {
    var v := Do(w, Register, me, lim);
    forall j ensures JobFits(v, j, me) {
      assert JobFits(w, j, me);
      if j in v.agent.link.disowned {
        var replayed := w.agent.Replayed();
        var k :| k in replayed && Disowned(w.server.db, k.job, replayed[k]) && k.job == j;
        KeptIsNotDisowned(w.server.db, j, me, replayed[k]);
      }
    }
  }

  lemma GrantKeepsInv(w: System, s: Step, me: AgentId, lim: AgentLimits)
    requires Inv(w, me) && Enabled(w, s) && (s.DeliverGrant? || s.LoseGrant?)
    ensures Inv(Do(w, s, me, lim), me)
  {
    var v := Do(w, s, me, lim);
    forall j ensures JobFits(v, j, me) {
      assert JobFits(w, j, me);
    }
  }

  lemma BeginKeepsInv(w: System, k: IntentId, me: AgentId, lim: AgentLimits)
    requires Inv(w, me) && Enabled(w, BeginInstall(k))
    ensures Inv(Do(w, BeginInstall(k), me, lim), me)
  {
    assert JobFits(w, k.job, me) && !IsRunning(w.agent, k.job);
    forall j ensures JobFits(Do(w, BeginInstall(k), me, lim), j, me) {
      assert JobFits(w, j, me);
      BeginFits(w, k, me, lim, j);
    }
  }

  lemma BeginFits(w: System, k: IntentId, me: AgentId, lim: AgentLimits, j: JobId)
    requires Enabled(w, BeginInstall(k)) && JobFits(w, k.job, me) && JobFits(w, j, me)
    ensures JobFits(Do(w, BeginInstall(k), me, lim), j, me)
  {
    var v := Do(w, BeginInstall(k), me, lim);
    assert k in v.agent.running;
    assert IsRunning(v.agent, j) <==> IsRunning(w.agent, j) || k.job == j;
  }

  lemma FinishKeepsInv(w: System, k: IntentId, says: Report, me: AgentId, lim: AgentLimits)
    requires Inv(w, me) && Enabled(w, FinishInstall(k, says))
    ensures Inv(Do(w, FinishInstall(k, says), me, lim), me)
  {
    var v := Do(w, FinishInstall(k, says), me, lim);
    forall j ensures JobFits(v, j, me) {
      assert JobFits(w, j, me);
      assert k.job == j ==> IsRunning(w.agent, j) && !IsRunning(v.agent, j);
    }
  }

  lemma JournalKeepsInv(w: System, s: Step, me: AgentId, lim: AgentLimits)
    requires Inv(w, me) && Enabled(w, s)
    requires s.LogRecord? || s.ClearRecord? || s.RecoverDisowned? || s.RecoverAtStartup?
    ensures Inv(Do(w, s, me, lim), me)
  {
    var v := Do(w, s, me, lim);
    forall j ensures JobFits(v, j, me) {
      assert JobFits(w, j, me);
      if s.LogRecord? && s.k.job == j {
        assert IsRunning(w.agent, j);
        assert Past(w.server.db, j);
      }
    }
  }

  lemma LinkKeepsInv(w: System, s: Step, me: AgentId, lim: AgentLimits)
    requires Inv(w, me) && Enabled(w, s)
    requires s.LoseReport? || s.DropStream? || s.RestartAgent? || s.ReadJournal? || s.DisowningDone? || s.StartingDone?
    ensures Inv(Do(w, s, me, lim), me)
  {
    var v := Do(w, s, me, lim);
    forall j ensures JobFits(v, j, me) {
      assert JobFits(w, j, me);
    }
  }

  lemma StepKeepsInv(w: System, s: Step, me: AgentId, lim: AgentLimits)
    requires Inv(w, me) && Allowed(w, s, me)
    ensures Inv(Do(w, s, me, lim), me)
  {
    match s
    case AtServer(e) => ServerKeepsInv(w, e, me, lim);
    case AskToCommit(epoch, j) => AskKeepsInv(w, epoch, j, me, lim);
    case DeliverReport(epoch, i, r) => ReportKeepsInv(w, epoch, i, r, me, lim);
    case Register => RegisterKeepsInv(w, me, lim);
    case DeliverGrant(_) => GrantKeepsInv(w, s, me, lim);
    case LoseGrant(_) => GrantKeepsInv(w, s, me, lim);
    case BeginInstall(k) => BeginKeepsInv(w, k, me, lim);
    case FinishInstall(k, says) => FinishKeepsInv(w, k, says, me, lim);
    case LogRecord(_, _) => JournalKeepsInv(w, s, me, lim);
    case ClearRecord(_) => JournalKeepsInv(w, s, me, lim);
    case RecoverDisowned(_, _) => JournalKeepsInv(w, s, me, lim);
    case RecoverAtStartup(_, _) => JournalKeepsInv(w, s, me, lim);
    case _ => LinkKeepsInv(w, s, me, lim);
  }

  lemma {:induction false} RunKeepsInv(w: System, steps: seq<Step>, me: AgentId, lim: AgentLimits)
    requires Inv(w, me) && Possible(w, steps, me, lim)
    ensures Inv(AfterAll(w, steps, me, lim), me)
    decreases |steps|
  {
    if steps != [] {
      StepKeepsInv(w, steps[0], me, lim);
      RunKeepsInv(Do(w, steps[0], me, lim), steps[1..], me, lim);
    }
  }

  lemma FitsKeepsThemApart(v: System, k: IntentId, resolved: bool, me: AgentId)
    requires JobFits(v, k.job, me) && FreshIsIdle(v.agent)
    ensures Enabled(v, RecoverDisowned(k, resolved)) ==> !IsRunning(v.agent, k.job)
    ensures Enabled(v, RecoverAtStartup(k, resolved)) ==> v.agent.running == {}
  {
  }

  lemma InvKeepsThemApart(v: System, k: IntentId, resolved: bool, me: AgentId)
    requires Inv(v, me)
    ensures Enabled(v, RecoverDisowned(k, resolved)) ==> !IsRunning(v.agent, k.job)
    ensures Enabled(v, RecoverAtStartup(k, resolved)) ==> v.agent.running == {}
  {
    FitsKeepsThemApart(v, k, resolved, me);
  }

  /** Over any run of drops, restarts, reconnects, passes and messages, recovery never runs on a record
   *  of a job whose install is running; and the recovery of a whole journal finds no install at all.
   */
  lemma RecoveryNeverOverlapsAnInstall(
      w: System, steps: seq<Step>, me: AgentId, lim: AgentLimits, k: IntentId, resolved: bool)
    requires Inv(w, me) && Possible(w, steps, me, lim)
    ensures
      var v := AfterAll(w, steps, me, lim);
      && (Enabled(v, RecoverDisowned(k, resolved)) ==> !IsRunning(v.agent, k.job))
      && (Enabled(v, RecoverAtStartup(k, resolved)) ==> v.agent.running == {})
  {
    RunKeepsInv(w, steps, me, lim);
    InvKeepsThemApart(AfterAll(w, steps, me, lim), k, resolved, me);
  }

  /** A store with no work and an agent that has just started. */
  lemma FreshStartFits(l: Ledger, me: AgentId)
    ensures Inv(System(Server(Db(map[], map[]), l), Agent(Down, false, map[], {}, {}, {}, map[])), me)
  {
  }

  // ---- Why failures must not be late

  /** A running install whose record is in the journal under the job's path, the job still held at the
   *  epoch it was handed out under.
   */
  predicate MidInstall(w: System, k: IntentId, epoch: nat, me: AgentId) {
    && k in w.agent.running && k in w.agent.journal
    && Heeded(w.server.db, me, epoch, k.job) && w.agent.journal[k] == w.server.db.jobs[k.job].path
  }

  lemma OnlyTheCurrentIsLive(db: Db, j: JobId, i: IntentId)
    requires Sound(db) && j in db.jobs && db.Live(db.Current(j))
    requires db.Live(i) && (i.job == j || db.intents[i].path == db.jobs[j].path)
    ensures i == db.Current(j)
  {
    assert JobSound(db, j);
  }

  lemma LateFailureFreesThePath(db: Db, j: JobId, me: AgentId, epoch: nat)
    requires Sound(db) && Kept(db, j, me) && Heeded(db, me, epoch, j)
    ensures LateFailure(db, me, epoch, j)
    ensures Disowned(ResultIn(db, me, epoch, j, false), j, db.jobs[j].path)
  {
    var e := ResultIn(db, me, epoch, j, false);
    assert e == Resolve(db, db.Current(j));
    forall i | e.Live(i) ensures i.job != j && e.intents[i].path != db.jobs[j].path {
      if i.job == j || db.intents[i].path == db.jobs[j].path { OnlyTheCurrentIsLive(db, j, i); }
    }
  }

  /** The stream drops, and the agent registers again. */
  function Reconnected(w: System, me: AgentId, lim: AgentLimits): System {
    Do(Do(Do(w, DropStream, me, lim), ReadJournal, me, lim), Register, me, lim)
  }

  lemma RegisterDisowns(w: System, k: IntentId, me: AgentId, lim: AgentLimits)
    requires k in w.agent.journal && Disowned(w.server.db, k.job, w.agent.journal[k])
    ensures
      var registered := Reconnected(w, me, lim);
      Enabled(registered, RecoverDisowned(k, true)) && registered.agent.running == w.agent.running
  {
  }

  /** One late failure is enough to break it.  If the failure of an earlier attempt of the job is heeded
   *  while this install runs, the job's reservation is gone; a reconnect then has the server disown the
   *  record, and recovery may run beside the install.
   */
  lemma LateFailureLetsRecoveryIn(w: System, epoch: nat, k: IntentId, me: AgentId, lim: AgentLimits)
    requires Inv(w, me) && w.agent.link.Open? && MidInstall(w, k, epoch, me)
    ensures
      var failed := w.(server := Next(w.server, Result(me, epoch, k.job, false), lim));
      var registered := Reconnected(failed, me, lim);
      && LateFailure(w.server.db, me, epoch, k.job)
      && Enabled(registered, RecoverDisowned(k, true))
      && IsRunning(registered.agent, k.job)
  {
    assert JobFits(w, k.job, me) && IsRunning(w.agent, k.job);
    LateFailureFreesThePath(w.server.db, k.job, me, epoch);
    RegisterDisowns(w.(server := Next(w.server, Result(me, epoch, k.job, false), lim)), k, me, lim);
  }
}
