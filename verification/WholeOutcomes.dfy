/** What the server calls a success is an install that landed. */
module WholeOutcomes {
  import opened Optional
  import opened Jobs
  import opened Capacity
  import opened Store
  import opened Server
  import opened ServerInvariant
  import opened ServerRuns
  import opened ServerGuarantees
  import opened ServerMessages
  import opened AgentServer
  import opened SharedDisk
  import opened WholeSystem
  import Disk = Ritual
  import Runs = RitualRuns

  type Endings = set<(IntentId, Disk.Ending)>

  /** An install that ended so is done, or has left the source where it was. */
  predicate Bears(ending: Disk.Ending, installed: bool) {
    if installed then ending == Disk.Resolved(Disk.Landed)
    else ending in {Disk.Resolved(Disk.SourceIntact), Disk.Resolved(Disk.SourceRestored)}
  }

  ghost predicate Borne(i: IntentId, ended: Endings, installed: bool) {
    exists ending :: (i, ending) in ended && Bears(ending, installed)
  }

  /** Whoever is told that an install is done, or that the source was kept, is told of one that ended so. */
  ghost predicate WordIsTrue(said: Word, j: JobId, ended: Endings) {
    && said.intent.job == j
    && (said.says == Installed ==> Borne(said.intent, ended, true))
    && (said.says == SourceKept ==> Borne(said.intent, ended, false))
  }

  ghost predicate WordsAreTrue(a: Agent, ended: Endings) {
    forall j | j in a.reports :: WordIsTrue(a.reports[j], j, ended)
  }

  /** The job's reservation is another agent's, or the install it was for bears out what became of the job. */
  ghost predicate Earned(db: Db, ended: Endings, me: AgentId, j: JobId)
    requires j in db.jobs
  {
    var i := db.Current(j);
    (i in db.intents && db.intents[i].agent != me) || Borne(i, ended, db.jobs[j].state == Succeeded)
  }

  ghost predicate OutcomesAreEarned(db: Db, ended: Endings, me: AgentId) {
    forall j | Settles(db, j) :: Earned(db, ended, me, j)
  }

  lemma BorneLasts(i: IntentId, ended: Endings, more: Endings, installed: bool)
    requires ended <= more && Borne(i, ended, installed)
    ensures Borne(i, more, installed)
  {
    var ending :| (i, ending) in ended && Bears(ending, installed);
    assert (i, ending) in more;
  }

  /** What was earned stays earned. */
  lemma EarnedLasts(db: Db, e: Db, ended: Endings, me: AgentId, j: JobId)
    requires Later(db, e) && Settles(db, j) && Earned(db, ended, me, j)
    ensures Settles(e, j) && Earned(e, ended, me, j)
  {
    assert RowLater(db.jobs[j], e.jobs[j]);
    var i := db.Current(j);
    if i in db.intents { assert IntentLater(db.intents[i], e.intents[i]); }
  }

  /** The live intent of a committing job is its current one. */
  lemma HolderIsCurrent(db: Db, i: IntentId, a: AgentId, epoch: nat)
    requires Sound(db) && Holder(db, i, a, epoch)
    ensures i.job in db.jobs && i == db.Current(i.job)
  {
    assert JobSound(db, i.job);
  }

  /** What the server is told by others earns no job of this agent's a success. */
  lemma ServerKeepsEarned(s: Server, e: Event, lim: AgentLimits, ended: Endings, me: AgentId)
    requires Sound(s.db) && Legal(s.db, e) && !(e.CommitReport? && e.a == me) && OutcomesAreEarned(s.db, ended, me)
    ensures OutcomesAreEarned(Next(s, e, lim).db, ended, me)
  {
    var db := Next(s, e, lim).db;
    NextIsLater(s, e, lim);
    forall j | Settles(db, j) ensures Earned(db, ended, me, j) {
      if Settles(s.db, j) {
        EarnedLasts(s.db, db, ended, me, j);
      } else {
        SettledExactlyWhenSaid(s, e, lim, j, db.In(j, Succeeded));
        HolderIsCurrent(s.db, e.i, e.a, e.epoch);
        ReportDecides(s.db, e.a, e.epoch, e.i, e.r);
      }
    }
  }

  /** A true word delivered earns what it brings about. */
  lemma DeliveryKeepsEarned(db: Db, epoch: nat, i: IntentId, r: Report, ended: Endings, me: AgentId)
    requires Sound(db) && WordIsTrue(Word(i, r), i.job, ended) && OutcomesAreEarned(db, ended, me)
    ensures OutcomesAreEarned(ReportIn(db, me, epoch, i, r), ended, me)
  {
    var e := ReportIn(db, me, epoch, i, r);
    ReportIsLater(db, me, epoch, i, r);
    forall j | Settles(e, j) ensures Earned(e, ended, me, j) {
      if Settles(db, j) {
        EarnedLasts(db, e, ended, me, j);
      } else {
        ReportSettles(db, me, epoch, i, r, j, e.In(j, Succeeded));
        HolderIsCurrent(db, i, me, epoch);
        ReportDecides(db, me, epoch, i, r);
      }
    }
  }

  lemma AskingKeepsEarned(db: Db, me: AgentId, epoch: nat, j: JobId, ended: Endings)
    requires OutcomesAreEarned(db, ended, me)
    ensures OutcomesAreEarned(CommitAsked(db, me, epoch, j).0, ended, me)
  {
    AskingDecides(db, me, epoch, j);
    var e := CommitAsked(db, me, epoch, j).0;
    forall k | Settles(e, k) ensures Earned(e, ended, me, k) {
      assert Settles(db, k) && e.jobs[k] == db.jobs[k];
    }
  }

  ghost predicate Honest(c: Setting, w: Whole) {
    WordsAreTrue(w.session.agent, w.ended) && OutcomesAreEarned(w.session.server.db, w.ended, c.me)
  }

  lemma TalkKeepsHonest(c: Setting, w: Whole, s: Step)
    requires Coupled(c, w) && Honest(c, w) && May(c, w, Talk(s))
    ensures Honest(c, Moved(c, w, Talk(s)))
  {
    var db := w.session.server.db;
    if s.AtServer? {
      ServerKeepsEarned(w.session.server, s.e, c.lim, w.ended, c.me);
    } else if s.AskToCommit? {
      AskingKeepsEarned(db, c.me, s.epoch, s.j, w.ended);
    } else if s.DeliverReport? {
      assert WordIsTrue(w.session.agent.reports[s.i.job], s.i.job, w.ended);
      DeliveryKeepsEarned(db, s.epoch, s.i, s.r, w.ended, c.me);
    }
  }

  lemma EarnedGrows(db: Db, ended: Endings, more: Endings, me: AgentId)
    requires OutcomesAreEarned(db, ended, me) && ended <= more
    ensures OutcomesAreEarned(db, more, me)
  {
    forall j | Settles(db, j) ensures Earned(db, more, me, j) {
      assert Earned(db, ended, me, j);
      var installed := db.jobs[j].state == Succeeded;
      if Borne(db.Current(j), ended, installed) { BorneLasts(db.Current(j), ended, more, installed); }
    }
  }

  lemma WordLasts(said: Word, j: JobId, ended: Endings, more: Endings)
    requires ended <= more && WordIsTrue(said, j, ended)
    ensures WordIsTrue(said, j, more)
  {
    if said.says == Installed { BorneLasts(said.intent, ended, more, true); }
    if said.says == SourceKept { BorneLasts(said.intent, ended, more, false); }
  }

  /** What is said of an install at the system call that ended it is how it ended. */
  lemma NoticedIsTrue(c: Setting, a: Agent, k: IntentId, t: Local, ended: Endings)
    requires c.Planned(k) && t.acts.Keys == c.asks.Keys && WordsAreTrue(a, ended)
    requires k in a.running ==> t.acts[c.key(k)].Installing? || t.acts[c.key(k)].Ended?
    ensures WordsAreTrue(Noticed(c, a, k, t), ended + EndedBy(c, a, k, t))
  {
    var b, more := Noticed(c, a, k, t), ended + EndedBy(c, a, k, t);
    forall j | j in b.reports ensures WordIsTrue(b.reports[j], j, more) {
      if j in a.reports && b.reports[j] == a.reports[j] {
        assert WordIsTrue(a.reports[j], j, ended);
        WordLasts(a.reports[j], j, ended, more);
      } else {
        assert (k, t.acts[c.key(k)].ending) in more;
      }
    }
  }

  lemma AnInstallGoesOnOrEnds(c: Setting, w: Whole, k: IntentId, a: Disk.Answer)
    requires w.local.acts.Keys == c.asks.Keys && c.Planned(k) && Agree(c, w, k) && k in w.session.agent.running
    ensures
      var act := Called(c.asks, w.local, c.key(k), a).acts[c.key(k)];
      act.Installing? || act.Ended?
  {
  }

  lemma CallKeepsHonest(c: Setting, w: Whole, k: IntentId, a: Disk.Answer)
    requires w.local.acts.Keys == c.asks.Keys && c.Planned(k) && Agree(c, w, k) && Honest(c, w)
    ensures Honest(c, Moved(c, w, Call(k, a)))
  {
    var t := Called(c.asks, w.local, c.key(k), a);
    if k in w.session.agent.running { AnInstallGoesOnOrEnds(c, w, k, a); }
    NoticedIsTrue(c, w.session.agent, k, t, w.ended);
    EarnedGrows(w.session.server.db, w.ended, w.ended + EndedBy(c, w.session.agent, k, t), c.me);
    CallIs(c, w, k, a);
  }

  lemma OtherMovesKeepHonest(c: Setting, w: Whole, m: Move)
    requires w.local.acts.Keys == c.asks.Keys && Honest(c, w) && May(c, w, m) && !m.Talk? && !m.Call?
    ensures Honest(c, Moved(c, w, m))
  {
    assert Moved(c, w, m).session.server == w.session.server && Moved(c, w, m).ended == w.ended;
    assert Moved(c, w, m).session.agent.reports == w.session.agent.reports;
  }

  lemma MoveKeepsHonest(c: Setting, w: Whole, m: Move)
    requires c.Fits() && Coupled(c, w) && Honest(c, w) && May(c, w, m)
    ensures Honest(c, Moved(c, w, m))
  {
    if m.Talk? {
      TalkKeepsHonest(c, w, m.s);
    } else if m.Call? {
      assert Agree(c, w, m.k);
      CallKeepsHonest(c, w, m.k, m.answer);
    } else {
      OtherMovesKeepHonest(c, w, m);
    }
  }

  lemma {:induction false} RunKeepsHonest(c: Setting, w: Whole, ms: seq<Move>, v: Whole)
    requires c.Fits() && Coupled(c, w) && Honest(c, w) && Happens(c, w, ms, v)
    ensures Coupled(c, v) && Honest(c, v)
    decreases |ms|
  {
    if ms != [] {
      MoveKeepsCoupled(c, w, ms[0]);
      MoveKeepsHonest(c, w, ms[0]);
      RunKeepsHonest(c, Moved(c, w, ms[0]), ms[1..], v);
    }
  }

  lemma EarnedMeans(db: Db, ended: Endings, me: AgentId, j: JobId)
    requires OutcomesAreEarned(db, ended, me)
    requires j in db.jobs && db.Current(j) in db.intents && db.intents[db.Current(j)].agent == me
    ensures db.jobs[j].state == Succeeded ==> (db.Current(j), Disk.Resolved(Disk.Landed)) in ended
    ensures db.jobs[j].state == Failed ==>
      || (db.Current(j), Disk.Resolved(Disk.SourceIntact)) in ended
      || (db.Current(j), Disk.Resolved(Disk.SourceRestored)) in ended
  {
    if Settles(db, j) {
      assert Earned(db, ended, me, j);
      var ending :| (db.Current(j), ending) in ended && Bears(ending, db.jobs[j].state == Succeeded);
    }
  }

  lemma HappensKeepsHonest(c: Setting, w: Whole, ms: seq<Move>, v: Whole)
    requires c.Fits() && Start(c, w) && Happens(c, w, ms, v)
    ensures Honest(c, v)
  {
    StartIsCoupled(c, w);
    RunKeepsHonest(c, w, ms, v);
  }

  /** From nothing, in every run of server, wire, agent and disk, of a job whose reservation was this agent's: if it
   *  has succeeded its install landed, and if it has failed its install ended with the source where it was.
   */
  lemma OutcomesAreBorneOut(c: Setting, w: Whole, ms: seq<Move>, v: Whole, j: JobId)
    requires c.Fits() && Start(c, w) && Happens(c, w, ms, v)
    requires
      var db := v.session.server.db;
      j in db.jobs && db.Current(j) in db.intents && db.intents[db.Current(j)].agent == c.me
    ensures
      var i, state := v.session.server.db.Current(j), v.session.server.db.jobs[j].state;
      && (state == Succeeded ==> (i, Disk.Resolved(Disk.Landed)) in v.ended)
      && (state == Failed ==>
            (i, Disk.Resolved(Disk.SourceIntact)) in v.ended || (i, Disk.Resolved(Disk.SourceRestored)) in v.ended)
  {
    HappensKeepsHonest(c, w, ms, v);
    EarnedMeans(v.session.server.db, v.ended, c.me, j);
  }

  lemma LandsInPlace(asks: Asks, s: Local, before: Disk.Disk, x: Disk.Key, a: Disk.Answer)
    requires Fit(asks) && x in asks && x in s.acts && KeyFits(asks, s, before, x) && s.acts[x].Installing?
    requires Called(asks, s, x, a).acts[x] == Disk.Ended(Disk.Resolved(Disk.Landed))
    ensures
      var d := Called(asks, s, x, a).disk;
      && x in s.found && x !in d.journal
      && Runs.BytesAt(d, asks[x].req.final) == Some(asks[x].replacement)
      && Runs.BytesAt(d, asks[x].req.trash) == Some(s.found[x])
  {
    assert OwnerFits(asks, s, x);
    Runs.InstallResolvesTruthfully(s.disk, asks[x].Over(s.found[x]), s.acts[x].at, a, Disk.Landed);
  }

  /** When an install lands its replacement is at the destination and what it found there is in the trash. */
  lemma LandedIsInPlace(c: Setting, w: Whole, k: IntentId, a: Disk.Answer)
    requires c.Fits() && Coupled(c, w) && c.Planned(k)
    requires (k, Disk.Resolved(Disk.Landed)) in
      EndedBy(c, w.session.agent, k, Called(c.asks, w.local, c.key(k), a))
    ensures
      var d, ask := Moved(c, w, Call(k, a)).local.disk, c.asks[c.key(k)];
      && c.key(k) in w.local.found && c.key(k) !in d.journal
      && Runs.BytesAt(d, c.Final(k)) == Some(ask.replacement)
      && Runs.BytesAt(d, ask.req.trash) == Some(w.local.found[c.key(k)])
  {
    assert Agree(c, w, k) && KeyFits(c.asks, w.local, c.before, c.key(k));
    LandsInPlace(c.asks, w.local, c.before, c.key(k), a);
  }
}
