/** One agent, its disk, the wire and the server in one system.
 *
 *  Installs and recoveries are the ones that go through the disk a system call at a time.  Jobs may follow one
 *  another at one destination.  That no two are at work on it at once is not assumed: it follows from what
 *  the server reserves, and from what the session lets the agent recover.
 */
module WholeSystem {
  import opened Optional
  import opened Jobs
  import opened Capacity
  import opened Store
  import opened Server
  import opened ServerInvariant
  import opened ServerGuarantees
  import opened AgentServer
  import opened SharedDisk
  import Disk = Ritual
  import Runs = RitualRuns
  import Worker

  /** The two halves: the session, and what each install or recovery does on the disk; and how each install
   *  that has ended did.
   */
  datatype Whole = Whole(session: System, local: Local, ended: set<(IntentId, Disk.Ending)>)

  /** The parameters of a run: which agent this is, which records are which intents', what each install is
   *  asked for, and the disk as it was at first.
   */
  datatype Setting = Setting(
    me: AgentId, lim: AgentLimits, key: IntentId -> Disk.Key, asks: Asks, before: Disk.Disk)
  {
    predicate Planned(k: IntentId) { key(k) in asks }

    function Final(k: IntentId): Path
      requires Planned(k)
    {
      asks[key(k)].req.final
    }

    ghost predicate Fits() {
      && Fit(asks)
      && (forall k, l | key(k) == key(l) :: k == l)
      && (forall x | x in asks :: exists k :: key(k) == x)
    }
  }

  /** `Talk` is everything that neither installs, recovers nor ends the process. */
  datatype Move =
    | Talk(s: Step)
    | Begin(k: IntentId)
    | Call(k: IntentId, answer: Disk.Answer)
    | Recover(k: IntentId)
    | Restart
    | Vanish(k: IntentId)

  predicate IsTalk(s: Step) {
    !s.BeginInstall? && !s.LogRecord? && !s.ClearRecord? && !s.FinishInstall? && !s.RestartAgent?
    && !s.RecoverDisowned? && !s.RecoverAtStartup?
  }

  /** A recovery is run to its end before its session goes on. */
  predicate EndsSession(s: Step) { s.DropStream? || s.DisowningDone? || s.StartingDone? }

  /** No recovery is running. */
  ghost predicate Quiet(c: Setting, w: Whole)
    requires w.local.acts.Keys == c.asks.Keys
  {
    forall k | c.Planned(k) :: !w.local.acts[c.key(k)].Recovering?
  }

  /** The destination of a job that is handed out is its file. */
  predicate GoesTo(c: Setting, db: Db, k: IntentId)
    requires c.Planned(k)
  {
    k.job in db.jobs && db.jobs[k.job].path == c.Final(k)
  }

  /** Recoveries come one after another, each when the session says so; nothing is asked of the disk. */
  ghost predicate May(c: Setting, w: Whole, m: Move)
    requires w.local.acts.Keys == c.asks.Keys
  {
    match m
    case Talk(s) => IsTalk(s) && Allowed(w.session, s, c.me) && (EndsSession(s) ==> Quiet(c, w))
    case Begin(k) =>
      c.Planned(k) && Enabled(w.session, BeginInstall(k)) && GoesTo(c, w.session.server.db, k)
    case Call(k, a) => c.Planned(k) && Sees(c.asks, w.local, c.key(k), a) && Differs(c.asks, w.local, c.key(k), a)
    case Recover(k) =>
      && c.Planned(k) && Quiet(c, w)
      && (Enabled(w.session, RecoverDisowned(k, true)) || Enabled(w.session, RecoverAtStartup(k, true)))
    case Restart => true
    case Vanish(k) => c.Planned(k)
  }

  /** What the server makes of the word of the worker on an install that is over. */
  function Said(act: Disk.Activity): Report {
    if !act.Ended? then Undecided
    else
      match Worker.Told(act.ending)
      case Landed => Installed
      case SourceIntact => SourceKept
      case SourceRestored => SourceKept
      case NeedsOperator => Undecided
  }

  /** What the session knows of a system call: the record that appeared or went, and the install that ended. */
  function Noticed(c: Setting, a: Agent, k: IntentId, t: Local): Agent
    requires c.Planned(k) && t.acts.Keys == c.asks.Keys
  {
    var going := t.acts[c.key(k)].Installing?;
    a.(journal := if c.key(k) !in t.disk.journal then a.journal - {k}
                  else if k in a.journal then a.journal
                  else a.journal[k := c.Final(k)],
       running := if going then a.running else a.running - {k},
       reports := if k in a.running && !going then a.reports[k.job := Word(k, Said(t.acts[c.key(k)]))] else a.reports)
  }

  /** The install a system call ended, if it did. */
  function EndedBy(c: Setting, a: Agent, k: IntentId, t: Local): set<(IntentId, Disk.Ending)>
    requires c.Planned(k) && t.acts.Keys == c.asks.Keys
  {
    if k in a.running && t.acts[c.key(k)].Ended? then {(k, t.acts[c.key(k)].ending)} else {}
  }

  function Moved(c: Setting, w: Whole, m: Move): Whole
    requires w.local.acts.Keys == c.asks.Keys && (m.Talk? ==> Enabled(w.session, m.s))
    requires m.Begin? || m.Call? || m.Recover? || m.Vanish? ==> c.Planned(m.k)
    requires m.Begin? ==> Enabled(w.session, BeginInstall(m.k))
    ensures Moved(c, w, m).local.acts.Keys == c.asks.Keys
  {
    match m
    case Talk(s) => w.(session := Do(w.session, s, c.me, c.lim))
    case Begin(k) => w.(session := Do(w.session, BeginInstall(k), c.me, c.lim), local := Begun(w.local, c.key(k)))
    case Call(k, a) =>
      var t := Called(c.asks, w.local, c.key(k), a);
      Whole(w.session.(agent := Noticed(c, w.session.agent, k, t)), t, w.ended + EndedBy(c, w.session.agent, k, t))
    case Recover(k) =>
      if c.key(k) in w.local.disk.journal then w.(local := Resumed(w.local, c.key(k))) else w
    case Restart => w.(session := Do(w.session, RestartAgent, c.me, c.lim), local := Crashed(w.local))
    case Vanish(k) => w.(local := Vanished(c.asks, w.local, c.key(k)))
  }

  // ---- The invariant

  ghost predicate Recoverable(v: System, k: IntentId) {
    v.agent.link.Starting? || (v.agent.link.Disowning? && k.job in v.agent.link.disowned)
  }

  /** What one install's two halves agree on. */
  ghost predicate Agree(c: Setting, w: Whole, k: IntentId)
    requires c.Planned(k) && w.local.acts.Keys == c.asks.Keys
  {
    var act, a := w.local.acts[c.key(k)], w.session.agent;
    && (k in a.running <==> act.Installing?)
    && (k in a.journal <==> c.key(k) in w.local.disk.journal)
    && (k in a.journal ==> a.journal[k] == c.Final(k))
    && (k in a.Replayed() ==> a.Replayed()[k] == c.Final(k) && !act.Idle?)
    && (!act.Idle? ==>
          && Past(w.session.server.db, k.job) && k.job !in a.grants && k.job !in a.permits
          && GoesTo(c, w.session.server.db, k))
    && (act.Recovering? ==> Recoverable(w.session, k))
  }

  /** About to install, or at it. */
  predicate UnderWay(a: Agent, j: JobId) { j in a.permits || IsRunning(a, j) }

  /** A record that may be recovered, or is being. */
  predicate Left(c: Setting, w: Whole, k: IntentId)
    requires c.Planned(k) && w.local.acts.Keys == c.asks.Keys
  {
    k in w.session.agent.journal || w.local.acts[c.key(k)].Recovering?
  }

  /** Of these jobs' records none has a destination in common with what is under way. */
  ghost predicate ApartFrom(c: Setting, w: Whole, jobs: set<JobId>)
    requires w.local.acts.Keys == c.asks.Keys
  {
    forall k, j | c.Planned(k) && Left(c, w, k) && k.job in jobs && UnderWay(w.session.agent, j) ::
      j in w.session.server.db.jobs && w.session.server.db.jobs[j].path != c.Final(k)
  }

  /** What is being disowned has no destination in common with what is under way. */
  ghost predicate DisownedApart(c: Setting, w: Whole)
    requires w.local.acts.Keys == c.asks.Keys
  {
    w.session.agent.link.Disowning? ==> ApartFrom(c, w, w.session.agent.link.disowned)
  }

  ghost predicate OneRecovery(c: Setting, w: Whole)
    requires w.local.acts.Keys == c.asks.Keys
  {
    forall k, l | c.Planned(k) && c.Planned(l)
      && w.local.acts[c.key(k)].Recovering? && w.local.acts[c.key(l)].Recovering? :: k == l
  }

  ghost predicate AllPlanned(c: Setting, a: Agent) {
    forall k | k in a.running || k in a.journal || k in a.Replayed() :: c.Planned(k)
  }

  ghost predicate Coupled(c: Setting, w: Whole) {
    && Inv(w.session, c.me) && Fits(c.asks, w.local, c.before)
    && AllPlanned(c, w.session.agent) && OneRecovery(c, w) && DisownedApart(c, w)
    && forall k | c.Planned(k) :: Agree(c, w, k)
  }

  // ---- Nobody shares a destination while at work

  /** The destination of a job on its way to an install is reserved. */
  lemma KeptIsTaken(db: Db, j: JobId, me: AgentId)
    requires Sound(db) && Kept(db, j, me)
    ensures db.Live(db.Current(j)) && db.intents[db.Current(j)].path == db.jobs[j].path
    ensures db.PathTaken(db.jobs[j].path)
  {
    assert JobSound(db, j);
  }

  /** Two jobs on their way to an install have different destinations. */
  lemma KeptApart(db: Db, i: JobId, j: JobId, me: AgentId)
    requires Sound(db) && Kept(db, i, me) && Kept(db, j, me) && db.jobs[i].path == db.jobs[j].path
    ensures i == j
  {
    KeptIsTaken(db, i, me);
    KeptIsTaken(db, j, me);
    assert db.Current(i) == db.Current(j);
  }

  lemma RunningIsKept(v: System, k: IntentId, me: AgentId)
    requires Inv(v, me) && k in v.agent.running
    ensures Kept(v.server.db, k.job, me)
  {
    assert JobFits(v, k.job, me) && IsRunning(v.agent, k.job);
  }

  lemma InstallsApart(c: Setting, w: Whole, k: IntentId, l: IntentId)
    requires Coupled(c, w) && c.Planned(k) && c.Planned(l) && k != l
    requires w.local.acts[c.key(k)].Installing? && w.local.acts[c.key(l)].Installing?
    ensures c.Final(k) != c.Final(l)
  {
    assert Agree(c, w, k) && Agree(c, w, l);
    RunningIsKept(w.session, k, c.me);
    RunningIsKept(w.session, l, c.me);
    if c.Final(k) == c.Final(l) { KeptApart(w.session.server.db, k.job, l.job, c.me); }
  }

  lemma RecoveryApart(c: Setting, w: Whole, k: IntentId, l: IntentId)
    requires w.local.acts.Keys == c.asks.Keys && c.Planned(k) && c.Planned(l) && Agree(c, w, k) && Agree(c, w, l)
    requires FreshIsIdle(w.session.agent) && DisownedApart(c, w)
    requires Recoverable(w.session, k) && Left(c, w, k) && l in w.session.agent.running
    ensures c.Final(k) != c.Final(l)
  {
    assert UnderWay(w.session.agent, l.job);
  }

  /** Of two at work at once, installing or recovering, the destinations differ: so no two ever touch one file. */
  lemma AtWorkApart(c: Setting, w: Whole, k: IntentId, l: IntentId)
    requires c.Fits() && Coupled(c, w) && c.Planned(k) && c.Planned(l) && k != l
    requires Active(w.local.acts[c.key(k)]) && Active(w.local.acts[c.key(l)])
    ensures c.Final(k) != c.Final(l)
  {
    assert Agree(c, w, k) && Agree(c, w, l);
    var x, y := w.local.acts[c.key(k)], w.local.acts[c.key(l)];
    if x.Installing? && y.Installing? {
      InstallsApart(c, w, k, l);
    } else if x.Recovering? && y.Installing? {
      RecoveryApart(c, w, k, l);
    } else if x.Installing? && y.Recovering? {
      RecoveryApart(c, w, l, k);
    }
  }

  lemma AtWorkIsAlone(c: Setting, w: Whole, k: IntentId)
    requires c.Fits() && Coupled(c, w) && c.Planned(k) && Active(w.local.acts[c.key(k)])
    ensures Alone(c.asks, w.local, c.key(k))
  {
    forall x | x in c.asks && x != c.key(k) && c.asks[x].req.final == c.Final(k) ensures !Active(w.local.acts[x]) {
      var l :| c.key(l) == x;
      if Active(w.local.acts[x]) { AtWorkApart(c, w, k, l); }
    }
  }

  // ---- Talking

  lemma TalkKeepsPast(w: System, s: Step, me: AgentId, lim: AgentLimits, j: JobId)
    requires Inv(w, me) && Allowed(w, s, me) && IsTalk(s) && Past(w.server.db, j)
    ensures Past(Do(w, s, me, lim).server.db, j)
  {
    match s
    case AtServer(e) => PastStaysPast(w.server, e, lim, j);
    case AskToCommit(epoch, i) =>
      AskIs(w.server.db, me, epoch, i);
      if i != j { AskIsElsewhere(w.server.db, me, epoch, i, j); }
    case DeliverReport(epoch, i, r) =>
      if i.job == j {
        ReportIs(w.server.db, epoch, i, r, me);
      } else {
        ReportIsElsewhere(w.server.db, epoch, i, r, me, j);
      }
    case _ =>
  }

  /** Nothing said moves a job to another file. */
  lemma TalkKeepsPaths(w: System, s: Step, me: AgentId, lim: AgentLimits, j: JobId)
    requires Allowed(w, s, me) && IsTalk(s) && j in w.server.db.jobs
    ensures
      var db := Do(w, s, me, lim).server.db;
      j in db.jobs && db.jobs[j].path == w.server.db.jobs[j].path
  {
    match s
    case AtServer(e) =>
      NextIsLater(w.server, e, lim);
      assert RowLater(w.server.db.jobs[j], Do(w, s, me, lim).server.db.jobs[j]);
    case DeliverReport(epoch, i, r) =>
      ReportIsLater(w.server.db, me, epoch, i, r);
      assert RowLater(w.server.db.jobs[j], Do(w, s, me, lim).server.db.jobs[j]);
    case _ =>
  }

  /** Nothing said puts a job that was allowed to install on its way again. */
  lemma TalkGivesNoSecondPermit(w: System, s: Step, me: AgentId, lim: AgentLimits, j: JobId)
    requires Inv(w, me) && Allowed(w, s, me) && IsTalk(s)
    requires Past(w.server.db, j) && j !in w.agent.grants && j !in w.agent.permits
    ensures j !in Do(w, s, me, lim).agent.grants && j !in Do(w, s, me, lim).agent.permits
  {
    if s.AskToCommit? { AskIs(w.server.db, me, s.epoch, s.j); }
  }

  lemma TalkKeepsAgree(c: Setting, w: Whole, s: Step, k: IntentId)
    requires Coupled(c, w) && May(c, w, Talk(s)) && c.Planned(k)
    ensures Agree(c, Moved(c, w, Talk(s)), k)
  {
    assert Agree(c, w, k);
    if !w.local.acts[c.key(k)].Idle? {
      TalkKeepsPast(w.session, s, c.me, c.lim, k.job);
      TalkGivesNoSecondPermit(w.session, s, c.me, c.lim, k.job);
      TalkKeepsPaths(w.session, s, c.me, c.lim, k.job);
    }
    TalkKeepsHalf(c, w, s, k);
  }

  /** The part of the agreement that is about the agent alone. */
  lemma TalkKeepsHalf(c: Setting, w: Whole, s: Step, k: IntentId)
    requires w.local.acts.Keys == c.asks.Keys && c.Planned(k) && Agree(c, w, k) && May(c, w, Talk(s))
    requires c.key(k) in w.local.disk.journal ==> !w.local.acts[c.key(k)].Idle?
    ensures
      var a, b := w.session.agent, Do(w.session, s, c.me, c.lim).agent;
      && b.running == a.running && b.journal == a.journal
      && (k in b.Replayed() ==> b.Replayed()[k] == c.Final(k) && !w.local.acts[c.key(k)].Idle?)
      && (w.local.acts[c.key(k)].Recovering? ==> Recoverable(Do(w.session, s, c.me, c.lim), k))
  {
  }

  /** What the server disowns is reserved for nobody. */
  lemma DisownedIsFree(c: Setting, w: Whole, k: IntentId)
    requires Coupled(c, w) && w.session.agent.link.Registering? && c.Planned(k) && k in w.session.agent.journal
    requires k.job in DisownedBy(w.session.server.db, w.session.agent.Replayed())
    ensures !w.session.server.db.PathTaken(c.Final(k))
  {
    var v := w.session;
    var l :| l in v.agent.Replayed() && Disowned(v.server.db, l.job, v.agent.Replayed()[l]) && l.job == k.job;
    assert Agree(c, w, l) && Agree(c, w, k);
    assert !w.local.acts[c.key(k)].Idle? by { JournalIsBegun(c, w, k); }
  }

  lemma JournalIsBegun(c: Setting, w: Whole, k: IntentId)
    requires Coupled(c, w) && c.Planned(k) && k in w.session.agent.journal
    ensures !w.local.acts[c.key(k)].Idle?
  {
    assert Agree(c, w, k) && KeyFits(c.asks, w.local, c.before, c.key(k));
  }

  lemma UnderWayIsKept(v: System, j: JobId, me: AgentId)
    requires Inv(v, me) && UnderWay(v.agent, j)
    ensures Kept(v.server.db, j, me)
  {
    assert JobFits(v, j, me);
  }

  function Answered(v: System): System
    requires v.agent.link.Registering?
  {
    v.(agent := v.agent.(link := Disowning(DisownedBy(v.server.db, v.agent.Replayed()))))
  }

  ghost predicate AllFree(c: Setting, w: Whole, jobs: set<JobId>)
    requires w.local.acts.Keys == c.asks.Keys
  {
    forall k | c.Planned(k) && Left(c, w, k) && k.job in jobs :: !w.session.server.db.PathTaken(c.Final(k))
  }

  ghost predicate AllTaken(v: System) {
    forall j | UnderWay(v.agent, j) :: j in v.server.db.jobs && v.server.db.PathTaken(v.server.db.jobs[j].path)
  }

  lemma DisownedAreFree(c: Setting, w: Whole)
    requires Coupled(c, w) && w.session.agent.link.Registering?
    ensures AllFree(c, w, DisownedBy(w.session.server.db, w.session.agent.Replayed()))
  {
    var jobs := DisownedBy(w.session.server.db, w.session.agent.Replayed());
    forall k | c.Planned(k) && Left(c, w, k) && k.job in jobs
      ensures !w.session.server.db.PathTaken(c.Final(k))
    {
      assert Agree(c, w, k);
      DisownedIsFree(c, w, k);
    }
  }

  lemma UnderWayIsTaken(v: System, me: AgentId)
    requires Inv(v, me)
    ensures AllTaken(v)
  {
    forall j | UnderWay(v.agent, j)
      ensures j in v.server.db.jobs && v.server.db.PathTaken(v.server.db.jobs[j].path)
    {
      UnderWayIsKept(v, j, me);
      KeptIsTaken(v.server.db, j, me);
    }
  }

  lemma AnsweredIsApart(c: Setting, w: Whole)
    requires w.local.acts.Keys == c.asks.Keys && w.session.agent.link.Registering?
    requires ApartFrom(c, w, DisownedBy(w.session.server.db, w.session.agent.Replayed()))
    ensures DisownedApart(c, w.(session := Answered(w.session)))
  {
    var t := w.(session := Answered(w.session));
    forall k, j | c.Planned(k) && Left(c, t, k) && k.job in t.session.agent.link.disowned
      && UnderWay(t.session.agent, j)
      ensures j in t.session.server.db.jobs && t.session.server.db.jobs[j].path != c.Final(k)
    {
      assert Left(c, w, k) && UnderWay(w.session.agent, j);
    }
  }

  lemma RegisterIs(v: System, me: AgentId, lim: AgentLimits)
    requires v.agent.link.Registering?
    ensures Do(v, Register, me, lim) == Answered(v)
  {
  }

  lemma RegisterKeepsApart(c: Setting, w: Whole)
    requires Coupled(c, w) && w.session.agent.link.Registering?
    ensures DisownedApart(c, Moved(c, w, Talk(Register)))
  {
    RegisterIs(w.session, c.me, c.lim);
    DisownedAreFree(c, w);
    UnderWayIsTaken(w.session, c.me);
    AnsweredIsApart(c, w);
  }

  lemma OtherTalkKeepsApart(c: Setting, w: Whole, s: Step)
    requires w.local.acts.Keys == c.asks.Keys && DisownedApart(c, w) && May(c, w, Talk(s)) && !s.Register?
    ensures DisownedApart(c, Moved(c, w, Talk(s)))
  {
    var v, t := w.session, Moved(c, w, Talk(s));
    if t.session.agent.link.Disowning? {
      assert v.agent.link == t.session.agent.link && v.agent.running == t.session.agent.running;
      assert t.session.agent.permits <= v.agent.permits && t.session.agent.journal == v.agent.journal;
      forall k, j | c.Planned(k) && Left(c, t, k) && k.job in v.agent.link.disowned && UnderWay(t.session.agent, j)
        ensures j in t.session.server.db.jobs && t.session.server.db.jobs[j].path != c.Final(k)
      {
        assert Left(c, w, k) && UnderWay(v.agent, j);
        TalkKeepsPaths(v, s, c.me, c.lim, j);
      }
    }
  }

  lemma TalkKeepsCoupled(c: Setting, w: Whole, s: Step)
    requires Coupled(c, w) && May(c, w, Talk(s))
    ensures Coupled(c, Moved(c, w, Talk(s)))
  {
    StepKeepsInv(w.session, s, c.me, c.lim);
    if s.Register? { RegisterKeepsApart(c, w); } else { OtherTalkKeepsApart(c, w, s); }
    forall k | c.Planned(k) ensures Agree(c, Moved(c, w, Talk(s)), k) {
      TalkKeepsAgree(c, w, s, k);
    }
  }

  // ---- Beginning an install

  /** An install begins only on a record that has never been begun. */
  lemma BeginIsFirst(c: Setting, w: Whole, k: IntentId, l: IntentId)
    requires Coupled(c, w) && May(c, w, Begin(k)) && c.Planned(l) && l.job == k.job
    ensures w.local.acts[c.key(l)].Idle? && Past(w.session.server.db, k.job) && k.job !in w.session.agent.grants
  {
    assert Agree(c, w, l);
    assert JobFits(w.session, k.job, c.me);
  }

  lemma BeginKeepsAgree(c: Setting, w: Whole, k: IntentId, l: IntentId)
    requires c.Fits() && w.local.acts.Keys == c.asks.Keys && c.Planned(k) && c.Planned(l) && Agree(c, w, l)
    requires Enabled(w.session, BeginInstall(k)) && w.local.acts[c.key(k)].Idle?
    requires Past(w.session.server.db, k.job) && k.job !in w.session.agent.grants
    requires GoesTo(c, w.session.server.db, k) && (l.job == k.job ==> w.local.acts[c.key(l)].Idle?)
    ensures Agree(c, Moved(c, w, Begin(k)), l)
  {
  }

  /** No more is left of these jobs, and no more is under way. */
  ghost predicate Fewer(c: Setting, w: Whole, t: Whole, jobs: set<JobId>)
    requires w.local.acts.Keys == c.asks.Keys == t.local.acts.Keys
  {
    && (forall l | c.Planned(l) && l.job in jobs && Left(c, t, l) :: Left(c, w, l))
    && (forall j | UnderWay(t.session.agent, j) :: UnderWay(w.session.agent, j))
  }

  lemma FewerStayApart(c: Setting, w: Whole, t: Whole, jobs: set<JobId>)
    requires w.local.acts.Keys == c.asks.Keys == t.local.acts.Keys && Fewer(c, w, t, jobs)
    requires ApartFrom(c, w, jobs) && t.session.server.db == w.session.server.db
    ensures ApartFrom(c, t, jobs)
  {
  }

  lemma BeginMovesOne(c: Setting, w: Whole, k: IntentId, l: IntentId)
    requires c.Fits() && w.local.acts.Keys == c.asks.Keys && c.Planned(k) && c.Planned(l)
    requires Enabled(w.session, BeginInstall(k)) && Moved(c, w, Begin(k)).local.acts[c.key(l)].Recovering?
    ensures w.local.acts[c.key(l)].Recovering?
  {
  }

  lemma BeginIsUnderWay(v: System, k: IntentId, me: AgentId, lim: AgentLimits, j: JobId)
    requires Enabled(v, BeginInstall(k)) && UnderWay(Do(v, BeginInstall(k), me, lim).agent, j)
    ensures UnderWay(v.agent, j)
  {
    var b := Do(v, BeginInstall(k), me, lim).agent;
    if IsRunning(b, j) {
      var l :| l in b.running && l.job == j;
      assert l in v.agent.running || l == k;
    }
  }

  lemma BeginKeepsApart(c: Setting, w: Whole, k: IntentId)
    requires c.Fits() && w.local.acts.Keys == c.asks.Keys && c.Planned(k) && Enabled(w.session, BeginInstall(k))
    requires DisownedApart(c, w)
    ensures DisownedApart(c, Moved(c, w, Begin(k)))
  {
    var t := Moved(c, w, Begin(k));
    if w.session.agent.link.Disowning? {
      forall l | c.Planned(l) && Left(c, t, l) ensures Left(c, w, l) {
        if t.local.acts[c.key(l)].Recovering? { BeginMovesOne(c, w, k, l); }
      }
      forall j | UnderWay(t.session.agent, j) ensures UnderWay(w.session.agent, j) {
        BeginIsUnderWay(w.session, k, c.me, c.lim, j);
      }
      FewerStayApart(c, w, t, w.session.agent.link.disowned);
    }
  }

  lemma BeginKeepsOne(c: Setting, w: Whole, k: IntentId)
    requires c.Fits() && w.local.acts.Keys == c.asks.Keys && c.Planned(k) && Enabled(w.session, BeginInstall(k))
    requires OneRecovery(c, w) && AllPlanned(c, w.session.agent)
    ensures OneRecovery(c, Moved(c, w, Begin(k))) && AllPlanned(c, Moved(c, w, Begin(k)).session.agent)
  {
    var t := Moved(c, w, Begin(k));
    forall l | c.Planned(l) && t.local.acts[c.key(l)].Recovering? ensures w.local.acts[c.key(l)].Recovering? {
      BeginMovesOne(c, w, k, l);
    }
  }

  lemma BeginKeepsCoupled(c: Setting, w: Whole, k: IntentId)
    requires c.Fits() && Coupled(c, w) && May(c, w, Begin(k))
    ensures Coupled(c, Moved(c, w, Begin(k)))
  {
    StepKeepsInv(w.session, BeginInstall(k), c.me, c.lim);
    BeginIsFirst(c, w, k, k);
    BeginKeepsFits(c.asks, w.local, c.before, c.key(k));
    BeginKeepsApart(c, w, k);
    BeginKeepsOne(c, w, k);
    forall l | c.Planned(l) ensures Agree(c, Moved(c, w, Begin(k)), l) {
      if l.job == k.job { BeginIsFirst(c, w, k, l); }
      BeginKeepsAgree(c, w, k, l);
    }
  }

  // ---- One system call

  lemma OwnCallAgrees(c: Setting, w: Whole, k: IntentId, a: Disk.Answer)
    requires w.local.acts.Keys == c.asks.Keys && c.Planned(k) && Agree(c, w, k)
    requires Does(w.local, Called(c.asks, w.local, c.key(k), a), c.key(k))
    ensures Agree(c, Moved(c, w, Call(k, a)), k)
  {
  }

  lemma OtherCallAgrees(c: Setting, w: Whole, k: IntentId, a: Disk.Answer, l: IntentId)
    requires w.local.acts.Keys == c.asks.Keys && c.Planned(k) && c.Planned(l) && k != l && Agree(c, w, l)
    requires Spares(w.local, Called(c.asks, w.local, c.key(k), a), c.key(l))
    ensures Agree(c, Moved(c, w, Call(k, a)), l)
  {
  }

  lemma CallKeepsAgree(c: Setting, w: Whole, k: IntentId, a: Disk.Answer, l: IntentId)
    requires c.Fits() && Coupled(c, w) && c.Planned(k) && c.Planned(l)
    ensures Agree(c, Moved(c, w, Call(k, a)), l)
  {
    if l == k {
      CallDoes(c.asks, w.local, c.before, c.key(k), a);
      OwnCallAgrees(c, w, k, a);
    } else {
      CallIsLocal(c.asks, w.local, c.before, c.key(k), a, c.key(l));
      OtherCallAgrees(c, w, k, a, l);
    }
  }

  /** The record's half of what is noticed. */
  function NoticedRecord(v: System, k: IntentId, there: bool, path: Path): System {
    v.(agent := v.agent.(journal := if !there then v.agent.journal - {k}
                                    else if k in v.agent.journal then v.agent.journal
                                    else v.agent.journal[k := path]))
  }

  lemma RecordKeepsInv(c: Setting, v: System, k: IntentId, there: bool, path: Path)
    requires Inv(v, c.me) && (there && k !in v.agent.journal ==> k in v.agent.running)
    requires !there && k in v.agent.journal ==>
      k in v.agent.running || Enabled(v, RecoverDisowned(k, true)) || Enabled(v, RecoverAtStartup(k, true))
    ensures Inv(NoticedRecord(v, k, there, path), c.me)
  {
    var u := NoticedRecord(v, k, there, path);
    if there && k !in v.agent.journal {
      StepKeepsInv(v, LogRecord(k, path), c.me, c.lim);
    } else if !there && k in v.agent.journal {
      var s := if k in v.agent.running then ClearRecord(k)
               else if Enabled(v, RecoverDisowned(k, true)) then RecoverDisowned(k, true)
               else RecoverAtStartup(k, true);
      StepKeepsInv(v, s, c.me, c.lim);
      assert Do(v, s, c.me, c.lim) == u;
    } else {
      assert u.agent.journal == v.agent.journal;
      assert u == v;
    }
  }

  lemma EndKeepsInv(c: Setting, v: System, k: IntentId, t: Local)
    requires c.Planned(k) && t.acts.Keys == c.asks.Keys
    requires Inv(NoticedRecord(v, k, c.key(k) in t.disk.journal, c.Final(k)), c.me)
    ensures Inv(v.(agent := Noticed(c, v.agent, k, t)), c.me)
  {
    var logged := NoticedRecord(v, k, c.key(k) in t.disk.journal, c.Final(k));
    var noticed := v.(agent := Noticed(c, v.agent, k, t));
    if k in v.agent.running && !t.acts[c.key(k)].Installing? {
      var over := FinishInstall(k, Said(t.acts[c.key(k)]));
      StepKeepsInv(logged, over, c.me, c.lim);
      assert noticed == Do(logged, over, c.me, c.lim);
    } else {
      assert noticed.agent.running == logged.agent.running;
      assert noticed == logged;
    }
  }

  /** A record appears only under its install, and goes only under its install or its recovery. */
  lemma RecordsFollow(c: Setting, w: Whole, k: IntentId, t: Local)
    requires w.local.acts.Keys == c.asks.Keys == t.acts.Keys && c.Planned(k)
    requires Agree(c, w, k) && Does(w.local, t, c.key(k))
    ensures
      var v, there := w.session, c.key(k) in t.disk.journal;
      && (there && k !in v.agent.journal ==> k in v.agent.running)
      && (!there && k in v.agent.journal ==>
            k in v.agent.running || Enabled(v, RecoverDisowned(k, true)) || Enabled(v, RecoverAtStartup(k, true)))
  {
  }

  /** The session's part of a system call is nothing, or one or two of its own steps. */
  lemma NoticingKeepsInv(c: Setting, w: Whole, k: IntentId, t: Local)
    requires w.local.acts.Keys == c.asks.Keys == t.acts.Keys && c.Planned(k)
    requires Inv(w.session, c.me) && Agree(c, w, k) && Does(w.local, t, c.key(k))
    ensures Inv(w.session.(agent := Noticed(c, w.session.agent, k, t)), c.me)
  {
    RecordsFollow(c, w, k, t);
    RecordKeepsInv(c, w.session, k, c.key(k) in t.disk.journal, c.Final(k));
    EndKeepsInv(c, w.session, k, t);
  }

  lemma CallIs(c: Setting, w: Whole, k: IntentId, a: Disk.Answer)
    requires w.local.acts.Keys == c.asks.Keys && c.Planned(k)
    ensures
      var t := Called(c.asks, w.local, c.key(k), a);
      Moved(c, w, Call(k, a)) ==
        Whole(w.session.(agent := Noticed(c, w.session.agent, k, t)), t, w.ended + EndedBy(c, w.session.agent, k, t))
  {
  }

  /** What is left after a system call was left before, but for the record of an install under way. */
  lemma CallLeavesNoMore(c: Setting, w: Whole, k: IntentId, a: Disk.Answer, l: IntentId)
    requires c.Fits() && w.local.acts.Keys == c.asks.Keys && Fits(c.asks, w.local, c.before)
    requires c.Planned(k) && c.Planned(l) && Agree(c, w, k)
    ensures
      var t := Moved(c, w, Call(k, a));
      && (t.local.acts[c.key(l)].Recovering? ==> w.local.acts[c.key(l)].Recovering?)
      && (Left(c, t, l) ==> Left(c, w, l) || (l == k && k in w.session.agent.running))
  {
    CallIs(c, w, k, a);
    if l == k {
      CallDoes(c.asks, w.local, c.before, c.key(k), a);
    } else {
      CallIsLocal(c.asks, w.local, c.before, c.key(k), a, c.key(l));
    }
  }

  lemma CallIsUnderWay(c: Setting, w: Whole, k: IntentId, t: Local, j: JobId)
    requires c.Planned(k) && t.acts.Keys == c.asks.Keys
    requires UnderWay(Noticed(c, w.session.agent, k, t), j)
    ensures UnderWay(w.session.agent, j)
  {
  }

  lemma CallLeavesFewer(c: Setting, w: Whole, k: IntentId, a: Disk.Answer)
    requires c.Fits() && w.local.acts.Keys == c.asks.Keys && Fits(c.asks, w.local, c.before)
    requires c.Planned(k) && Agree(c, w, k) && JobFits(w.session, k.job, c.me) && w.session.agent.link.Disowning?
    ensures Fewer(c, w, Moved(c, w, Call(k, a)), w.session.agent.link.disowned)
  {
    var t := Moved(c, w, Call(k, a));
    forall l | c.Planned(l) && l.job in w.session.agent.link.disowned && Left(c, t, l) ensures Left(c, w, l) {
      CallLeavesNoMore(c, w, k, a, l);
    }
    forall j | UnderWay(t.session.agent, j) ensures UnderWay(w.session.agent, j) {
      CallIsUnderWay(c, w, k, t.local, j);
    }
  }

  lemma CallKeepsApart(c: Setting, w: Whole, k: IntentId, a: Disk.Answer)
    requires c.Fits() && w.local.acts.Keys == c.asks.Keys && Fits(c.asks, w.local, c.before)
    requires c.Planned(k) && Agree(c, w, k) && JobFits(w.session, k.job, c.me) && DisownedApart(c, w)
    ensures DisownedApart(c, Moved(c, w, Call(k, a)))
  {
    if w.session.agent.link.Disowning? {
      CallLeavesFewer(c, w, k, a);
      FewerStayApart(c, w, Moved(c, w, Call(k, a)), w.session.agent.link.disowned);
    }
  }

  lemma CallKeepsPlanned(c: Setting, w: Whole, k: IntentId, a: Disk.Answer)
    requires w.local.acts.Keys == c.asks.Keys && c.Planned(k) && AllPlanned(c, w.session.agent)
    ensures AllPlanned(c, Moved(c, w, Call(k, a)).session.agent)
  {
  }

  /** No recovery begins that was not running. */
  ghost predicate NoMoreRecover(c: Setting, w: Whole, t: Whole)
    requires w.local.acts.Keys == c.asks.Keys == t.local.acts.Keys
  {
    forall l | c.Planned(l) && t.local.acts[c.key(l)].Recovering? :: w.local.acts[c.key(l)].Recovering?
  }

  lemma StillOne(c: Setting, w: Whole, t: Whole)
    requires w.local.acts.Keys == c.asks.Keys == t.local.acts.Keys && OneRecovery(c, w) && NoMoreRecover(c, w, t)
    ensures OneRecovery(c, t)
  {
  }

  lemma CallBeginsNoRecovery(c: Setting, w: Whole, k: IntentId, a: Disk.Answer)
    requires c.Fits() && w.local.acts.Keys == c.asks.Keys && Fits(c.asks, w.local, c.before)
    requires c.Planned(k) && Agree(c, w, k)
    ensures NoMoreRecover(c, w, Moved(c, w, Call(k, a)))
  {
    forall l | c.Planned(l) && Moved(c, w, Call(k, a)).local.acts[c.key(l)].Recovering?
      ensures w.local.acts[c.key(l)].Recovering?
    {
      CallLeavesNoMore(c, w, k, a, l);
    }
  }

  lemma CallKeepsInv(c: Setting, w: Whole, k: IntentId, a: Disk.Answer)
    requires c.Fits() && w.local.acts.Keys == c.asks.Keys && c.Planned(k)
    requires Inv(w.session, c.me) && Agree(c, w, k) && Fits(c.asks, w.local, c.before)
    ensures Inv(Moved(c, w, Call(k, a)).session, c.me)
  {
    CallDoes(c.asks, w.local, c.before, c.key(k), a);
    NoticingKeepsInv(c, w, k, Called(c.asks, w.local, c.key(k), a));
    CallIs(c, w, k, a);
  }

  lemma CallKeepsLocal(c: Setting, w: Whole, k: IntentId, a: Disk.Answer)
    requires c.Fits() && Coupled(c, w) && May(c, w, Call(k, a))
    ensures Fits(c.asks, Moved(c, w, Call(k, a)).local, c.before)
  {
    if Active(w.local.acts[c.key(k)]) { AtWorkIsAlone(c, w, k); }
    CallKeepsFits(c.asks, w.local, c.before, c.key(k), a);
  }

  lemma CallKeepsCoupled(c: Setting, w: Whole, k: IntentId, a: Disk.Answer)
    requires c.Fits() && Coupled(c, w) && May(c, w, Call(k, a))
    ensures Coupled(c, Moved(c, w, Call(k, a)))
  {
    assert Agree(c, w, k) && JobFits(w.session, k.job, c.me);
    CallKeepsInv(c, w, k, a);
    CallKeepsLocal(c, w, k, a);
    CallKeepsApart(c, w, k, a);
    CallBeginsNoRecovery(c, w, k, a);
    StillOne(c, w, Moved(c, w, Call(k, a)));
    CallKeepsPlanned(c, w, k, a);
    forall l | c.Planned(l) ensures Agree(c, Moved(c, w, Call(k, a)), l) {
      CallKeepsAgree(c, w, k, a, l);
    }
  }

  // ---- Recovering

  /** The session lets no recovery start beside an install, and only of a record that is there. */
  lemma SessionKeepsOff(c: Setting, w: Whole, k: IntentId)
    requires Coupled(c, w) && May(c, w, Recover(k))
    ensures k !in w.session.agent.running && k in w.session.agent.journal && Recoverable(w.session, k)
  {
    InvKeepsThemApart(w.session, k, true, c.me);
  }

  /** Whenever the session lets a recovery start, the disk is ready for it: nothing is at work on that record,
   *  and the record is there.
   */
  lemma RecoveryIsNeverEarly(c: Setting, w: Whole, k: IntentId)
    requires c.Fits() && Coupled(c, w) && May(c, w, Recover(k))
    ensures Runs.CanResume(w.local.acts[c.key(k)]) && c.key(k) in w.local.disk.journal
  {
    SessionKeepsOff(c, w, k);
    assert Agree(c, w, k);
  }

  lemma RecoverKeepsAgree(c: Setting, w: Whole, k: IntentId, l: IntentId)
    requires c.Fits() && w.local.acts.Keys == c.asks.Keys && c.Planned(k) && c.Planned(l)
    requires Agree(c, w, k) && Agree(c, w, l)
    requires Runs.CanResume(w.local.acts[c.key(k)]) && c.key(k) in w.local.disk.journal
    requires Recoverable(w.session, k)
    ensures Agree(c, w.(local := Resumed(w.local, c.key(k))), l)
  {
  }

  lemma RecoverKeepsApart(c: Setting, w: Whole, k: IntentId)
    requires c.Fits() && w.local.acts.Keys == c.asks.Keys && c.Planned(k) && DisownedApart(c, w)
    requires k in w.session.agent.journal && c.key(k) in w.local.disk.journal
    ensures DisownedApart(c, w.(local := Resumed(w.local, c.key(k))))
  {
    var t := w.(local := Resumed(w.local, c.key(k)));
    if w.session.agent.link.Disowning? {
      forall l | c.Planned(l) && Left(c, t, l) ensures Left(c, w, l) {
        if l != k { assert t.local.acts[c.key(l)] == w.local.acts[c.key(l)]; }
      }
      FewerStayApart(c, w, t, w.session.agent.link.disowned);
    }
  }

  lemma RecoverKeepsOne(c: Setting, w: Whole, k: IntentId)
    requires c.Fits() && w.local.acts.Keys == c.asks.Keys && c.Planned(k) && Quiet(c, w)
    requires c.key(k) in w.local.disk.journal
    ensures OneRecovery(c, w.(local := Resumed(w.local, c.key(k))))
  {
    var t := w.(local := Resumed(w.local, c.key(k)));
    forall l | c.Planned(l) && l != k ensures !t.local.acts[c.key(l)].Recovering? {
      assert t.local.acts[c.key(l)] == w.local.acts[c.key(l)];
    }
  }

  lemma RecoverKeepsCoupled(c: Setting, w: Whole, k: IntentId)
    requires c.Fits() && Coupled(c, w) && May(c, w, Recover(k))
    ensures Coupled(c, Moved(c, w, Recover(k)))
  {
    SessionKeepsOff(c, w, k);
    RecoveryIsNeverEarly(c, w, k);
    ResumeKeepsFits(c.asks, w.local, c.before, c.key(k));
    RecoverKeepsApart(c, w, k);
    RecoverKeepsOne(c, w, k);
    forall l | c.Planned(l) ensures Agree(c, w.(local := Resumed(w.local, c.key(k))), l) {
      RecoverKeepsAgree(c, w, k, l);
    }
  }

  // ---- Restarting, and what others delete

  lemma RestartKeepsAgree(c: Setting, w: Whole, l: IntentId)
    requires w.local.acts.Keys == c.asks.Keys && c.Planned(l) && Agree(c, w, l)
    ensures Agree(c, Moved(c, w, Restart), l)
  {
  }

  lemma RestartKeepsCoupled(c: Setting, w: Whole)
    requires c.Fits() && Coupled(c, w)
    ensures Coupled(c, Moved(c, w, Restart))
  {
    StepKeepsInv(w.session, RestartAgent, c.me, c.lim);
    CrashKeepsFits(c.asks, w.local, c.before);
    forall l | c.Planned(l) ensures Agree(c, Moved(c, w, Restart), l) {
      RestartKeepsAgree(c, w, l);
    }
  }

  lemma VanishKeepsAgree(c: Setting, w: Whole, k: IntentId, l: IntentId)
    requires w.local.acts.Keys == c.asks.Keys && c.Planned(k) && c.Planned(l) && Agree(c, w, l)
    ensures Agree(c, Moved(c, w, Vanish(k)), l)
  {
    var t := Vanished(c.asks, w.local, c.key(k));
    assert t.acts == w.local.acts && t.disk.journal == w.local.disk.journal;
  }

  lemma VanishKeepsApart(c: Setting, w: Whole, k: IntentId)
    requires w.local.acts.Keys == c.asks.Keys && c.Planned(k) && DisownedApart(c, w)
    ensures DisownedApart(c, Moved(c, w, Vanish(k)))
  {
    var t := Moved(c, w, Vanish(k));
    assert t.local.acts == w.local.acts && t.session == w.session;
    if w.session.agent.link.Disowning? {
      forall l | c.Planned(l) && Left(c, t, l) ensures Left(c, w, l) {
      }
      FewerStayApart(c, w, t, w.session.agent.link.disowned);
    }
  }

  lemma VanishKeepsCoupled(c: Setting, w: Whole, k: IntentId)
    requires c.Fits() && Coupled(c, w) && c.Planned(k)
    ensures Coupled(c, Moved(c, w, Vanish(k)))
  {
    var t := Moved(c, w, Vanish(k));
    assert t.session == w.session;
    assert t.local.acts == w.local.acts;
    assert NoMoreRecover(c, w, t);
    StillOne(c, w, t);
    VanishKeepsFits(c.asks, w.local, c.before, c.key(k));
    VanishKeepsApart(c, w, k);
    forall l | c.Planned(l) ensures Agree(c, Moved(c, w, Vanish(k)), l) {
      VanishKeepsAgree(c, w, k, l);
    }
  }

  lemma MoveKeepsCoupled(c: Setting, w: Whole, m: Move)
    requires c.Fits() && Coupled(c, w) && May(c, w, m)
    ensures Coupled(c, Moved(c, w, m))
  {
    match m
    case Talk(s) => TalkKeepsCoupled(c, w, s);
    case Begin(k) => BeginKeepsCoupled(c, w, k);
    case Call(k, a) => CallKeepsCoupled(c, w, k, a);
    case Recover(k) => RecoverKeepsCoupled(c, w, k);
    case Restart => RestartKeepsCoupled(c, w);
    case Vanish(k) => VanishKeepsCoupled(c, w, k);
  }

  // ---- Runs

  ghost predicate Happens(c: Setting, w: Whole, ms: seq<Move>, v: Whole)
    requires w.local.acts.Keys == c.asks.Keys
    decreases |ms|
  {
    if ms == [] then v == w else May(c, w, ms[0]) && Happens(c, Moved(c, w, ms[0]), ms[1..], v)
  }

  lemma {:induction false} RunKeepsCoupled(c: Setting, w: Whole, ms: seq<Move>, v: Whole)
    requires c.Fits() && Coupled(c, w) && Happens(c, w, ms, v)
    ensures Coupled(c, v)
    decreases |ms|
  {
    if ms != [] {
      MoveKeepsCoupled(c, w, ms[0]);
      RunKeepsCoupled(c, Moved(c, w, ms[0]), ms[1..], v);
    }
  }

  /** Nothing stored, an agent that has just started, and a disk on which no install has begun: no records,
   *  each temporary file absent or the output, and in no trash the same as at its destination.
   */
  ghost predicate Start(c: Setting, w: Whole) {
    && w.session.server.db == Db(map[], map[])
    && w.session.agent == Agent(Down, false, map[], {}, {}, {}, map[])
    && w.local.disk == c.before && w.local.owner == map[] && w.local.acts.Keys == c.asks.Keys && w.ended == {}
    && forall x | x in c.asks ::
         && w.local.acts[x] == Disk.Idle && x !in c.before.journal
         && Runs.BytesAt(c.before, c.asks[x].req.temp) in {None, Some(c.asks[x].replacement)}
         && Pristine(c.asks, w.local, c.before, x)
  }

  lemma StartIsCoupled(c: Setting, w: Whole)
    requires c.Fits() && Start(c, w)
    ensures Coupled(c, w)
  {
    FreshStartFits(w.session.server.ledger, c.me);
    StartFits(c, w);
  }

  lemma StartFits(c: Setting, w: Whole)
    requires Start(c, w)
    ensures Fits(c.asks, w.local, c.before)
  {
    forall x | x in c.asks ensures KeyFits(c.asks, w.local, c.before, x) {
    }
  }

  /** The whole of it, from nothing, for every run of server, wire, agent and disk, in which any number of jobs
   *  may follow one another at one destination.  No two are ever at work on one destination at once, and no
   *  recovery starts beside its install.  What each commit found is at exactly one of destination and trash
   *  from when it looked until the next one does, and what no commit has looked at is as it was.
   */
  lemma NothingIsLostInTheWholeSystem(c: Setting, w: Whole, ms: seq<Move>, v: Whole)
    requires c.Fits() && Start(c, w) && Happens(c, w, ms, v)
    ensures v.local.acts.Keys == c.asks.Keys
    ensures forall k, l | c.Planned(k) && c.Planned(l) && k != l
      && Active(v.local.acts[c.key(k)]) && Active(v.local.acts[c.key(l)]) :: c.Final(k) != c.Final(l)
    ensures forall k | May(c, v, Recover(k)) :: Runs.CanResume(v.local.acts[c.key(k)])
    ensures forall p | p in v.local.owner :: OneCopy(c, v.local, p)
    ensures forall k | c.Planned(k) && c.Final(k) !in v.local.owner ::
      Runs.BytesAt(v.local.disk, c.Final(k)) == Runs.BytesAt(c.before, c.Final(k))
  {
    StartIsCoupled(c, w);
    RunKeepsCoupled(c, w, ms, v);
    forall k, l | c.Planned(k) && c.Planned(l) && k != l
      && Active(v.local.acts[c.key(k)]) && Active(v.local.acts[c.key(l)])
      ensures c.Final(k) != c.Final(l)
    {
      AtWorkApart(c, v, k, l);
    }
    forall k | May(c, v, Recover(k)) ensures Runs.CanResume(v.local.acts[c.key(k)]) {
      RecoveryIsNeverEarly(c, v, k);
    }
    CoupledKeepsFiles(c, v);
  }

  /** What the destination's commit found is at exactly one of the two places; what else is at the destination
   *  is nothing, or all that the commit puts there.
   */
  ghost predicate OneCopy(c: Setting, s: Local, p: Path)
    requires p in s.owner
  {
    && s.owner[p] in c.asks && s.owner[p] in s.found
    && var x, original := c.asks[s.owner[p]], s.found[s.owner[p]];
       var final, trash := Runs.BytesAt(s.disk, p), Runs.BytesAt(s.disk, x.req.trash);
       && (final == Some(original)) != (trash == Some(original))
       && final in {None, Some(original), Some(x.replacement)}
  }

  lemma CoupledKeepsFiles(c: Setting, v: Whole)
    requires Coupled(c, v)
    ensures forall p | p in v.local.owner :: OneCopy(c, v.local, p)
    ensures forall k | c.Planned(k) && c.Final(k) !in v.local.owner ::
      Runs.BytesAt(v.local.disk, c.Final(k)) == Runs.BytesAt(c.before, c.Final(k))
  {
    forall p | p in v.local.owner ensures OneCopy(c, v.local, p) {
      OwnerKeepsOneCopy(c.asks, v.local, c.before, p);
    }
    forall k | c.Planned(k) && c.Final(k) !in v.local.owner
      ensures Runs.BytesAt(v.local.disk, c.Final(k)) == Runs.BytesAt(c.before, c.Final(k))
    {
      assert KeyFits(c.asks, v.local, c.before, c.key(k));
    }
  }

  /** Why it must not: were the recovery of a record, its own or an earlier one's, to run between two system
   *  calls of an install, three working calls of the one and one of the other would leave the original
   *  nowhere.
   */
  lemma AnOverlapLosesTheOriginal(d: Disk.Disk, job: Runs.Job, rec: Disk.Record)
    requires Runs.Accounted(d, job, Disk.Installing(Disk.Put)) && job.Sound() && job.req.temp in d.files
    requires rec.final == job.req.final && rec.trash == job.req.trash && rec.phase == Disk.Retired
    ensures
      var restored := Disk.Drive(d, job.req, Disk.Recovering(rec, Disk.Look), [Disk.Works, Disk.Works, Disk.Works]);
      var put := Disk.InstallStep(restored.disk, job.req, Disk.Put, Disk.Works).0;
      forall p | p in job.Paths() :: Runs.BytesAt(put, p) != Some(job.original)
  {
    var w := Disk.Works;
    assert [w, w, w][1..] == [w, w] && [w, w][1..] == [w] && [w][1..] == [];
    var e := Disk.Moved(d, job.req.trash, job.req.final);
    assert Disk.Drive(d, job.req, Disk.Recovering(rec, Disk.Restore(true)), [w]).disk == e;
    assert Disk.Drive(d, job.req, Disk.Recovering(rec, Disk.LookAgain(false)), [w, w])
      == Disk.Drive(d, job.req, Disk.Recovering(rec, Disk.Restore(true)), [w]);
  }
}
