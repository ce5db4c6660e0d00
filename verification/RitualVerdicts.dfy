/** When what an install or a recovery says of the disk is true. */
module RitualVerdicts {
  import opened Optional
  import opened Ritual
  import opened RitualRuns
  import opened RitualRecovery
  import opened CommitRitual

  // --------------------------------------------------------------------------- one recovery

  /** Where a recovery that has looked is heading: the truth, if what it will say is so already, or if it
   *  is still to move the original back.
   */
  predicate WillBeTrue(d: Disk, job: Job, where: Recovery) {
    match where
    case Look => false
    case LookAgain(_) => false
    case DropTemp(verdict) => Truthful(d, job, verdict)
    case Forget(verdict) => Truthful(d, job, verdict)
    case SyncForget(verdict) => Truthful(d, job, verdict)
    case DropTempThenRestore => true
    case Restore(_) => true
  }

  lemma {:induction false} DriveKeepsTheTruth(d: Disk, job: Job, rec: Record, where: Recovery, answers: seq<Answer>)
    requires Accounted(d, job, Recovering(rec, where)) && job.Sound() && !where.Look? && !where.LookAgain?
    ensures
      var p := Drive(d, job.req, Recovering(rec, where), answers);
      p.act.Ended? && p.act.ending.Resolved? ==>
        (Truthful(p.disk, job, p.act.ending.resolution) <==> WillBeTrue(d, job, where))
    decreases |answers|
  {
    if answers != [] {
      StepKeepsAccounted(d, job, Recovering(rec, where), answers[0]);
      var (e, act) := RecoveryStep(d, rec, where, answers[0]);
      if act.Recovering? {
        DriveKeepsTheTruth(e, job, rec, act.where, answers[1..]);
      } else {
        assert Drive(e, job.req, act, answers[1..]) == Progress(e, act, answers[1..]);
      }
    }
  }

  /** Whether a recovery of this record tells the truth, by what is there before it starts and by whether
   *  its two looks work: not if the original has been put back under a record that says it was retired,
   *  and not if it cannot see what it needs to.
   */
  predicate CanBeTrusted(d: Disk, job: Job, first: Answer, second: Answer) {
    && !Stale(d, job)
    && (PlaceOf(d, job) == Home ==> first == Works)
    && (PlaceOf(d, job) == Swapped ==> first == Works || second == Works)
  }

  /** For every disk, every pattern of failing calls and wherever it was cut before: a recovery that
   *  resolves a record says what is so if and only if it could be trusted to when it began.
   */
  lemma RecoveryTellsTheTruthExactlyWhen(d: Disk, job: Job, rec: Record, answers: seq<Answer>)
    requires Accounted(d, job, Recovering(rec, Look)) && job.Sound()
    ensures
      var p := Drive(d, job.req, Recovering(rec, Look), answers);
      p.act.Ended? && p.act.ending.Resolved? ==>
        && |answers| >= 2
        && (Truthful(p.disk, job, p.act.ending.resolution) <==> CanBeTrusted(d, job, answers[0], answers[1]))
  {
    if |answers| >= 2 {
      var finalSeen := answers[0] == Works && rec.final in d.files;
      var trashSeen := answers[1] == Works && rec.trash in d.files;
      var where := Decide(rec, finalSeen, trashSeen);
      assert Drive(d, job.req, Recovering(rec, Look), answers)
        == Drive(d, job.req, Recovering(rec, LookAgain(finalSeen)), answers[1..]);
      assert answers[1..][1..] == answers[2..];
      assert Drive(d, job.req, Recovering(rec, LookAgain(finalSeen)), answers[1..])
        == Drive(d, job.req, Recovering(rec, where), answers[2..]);
      StepKeepsAccounted(d, job, Recovering(rec, Look), answers[0]);
      StepKeepsAccounted(d, job, Recovering(rec, LookAgain(finalSeen)), answers[1]);
      DriveKeepsTheTruth(d, job, rec, where, answers[2..]);
    }
  }

  /** With working looks, recovery gives up exactly on a record that says nothing has moved although the
   *  original is in the trash; it keeps that record.
   */
  lemma GivingUpMeansRetiredButNotLogged(d: Disk, job: Job, rec: Record, answers: seq<Answer>)
    requires Accounted(d, job, Recovering(rec, Look)) && job.Sound()
    requires |answers| >= 2 && answers[0] == Works && answers[1] == Works
    ensures
      var p := Drive(d, job.req, Recovering(rec, Look), answers);
      p.act.Ended? && p.act.ending.Resolved? ==>
        && (p.act.ending.resolution == NeedsOperator <==> rec.phase == Granted && PlaceOf(d, job) == Away)
        && (p.act.ending.resolution == NeedsOperator ==>
              p.disk.journal == d.journal && PlaceOf(p.disk, job) == Away)
  {
    assert answers[1..][1..] == answers[2..];
    var finalSeen, trashSeen := rec.final in d.files, rec.trash in d.files;
    var where := Decide(rec, finalSeen, trashSeen);
    assert Drive(d, job.req, Recovering(rec, Look), answers)
      == Drive(d, job.req, Recovering(rec, LookAgain(finalSeen)), answers[1..]);
    assert Drive(d, job.req, Recovering(rec, LookAgain(finalSeen)), answers[1..])
      == Drive(d, job.req, Recovering(rec, where), answers[2..]);
    StepKeepsAccounted(d, job, Recovering(rec, Look), Works);
    StepKeepsAccounted(d, job, Recovering(rec, LookAgain(finalSeen)), Works);
    DriveKeepsTheVerdict(d, job, rec, where, answers[2..]);
  }

  /** The verdict a decided recovery is heading for. */
  function Heading(where: Recovery): Resolution {
    match where
    case DropTemp(verdict) => verdict
    case Forget(verdict) => verdict
    case SyncForget(verdict) => verdict
    case _ => SourceRestored
  }

  lemma {:induction false} DriveKeepsTheVerdict(d: Disk, job: Job, rec: Record, where: Recovery, answers: seq<Answer>)
    requires Accounted(d, job, Recovering(rec, where)) && job.Sound() && !where.Look? && !where.LookAgain?
    ensures
      var p := Drive(d, job.req, Recovering(rec, where), answers);
      && (p.act.Ended? && p.act.ending.Resolved? ==> p.act.ending.resolution == Heading(where))
      && (Heading(where) == NeedsOperator ==> p.disk.journal == d.journal && PlaceOf(p.disk, job) == PlaceOf(d, job))
    decreases |answers|
  {
    if answers != [] {
      MoveMovesTheOriginal(d, job);
      StepKeepsAccounted(d, job, Recovering(rec, where), answers[0]);
      var (e, act) := RecoveryStep(d, rec, where, answers[0]);
      if act.Recovering? {
        DriveKeepsTheVerdict(e, job, rec, act.where, answers[1..]);
      } else {
        assert Drive(e, job.req, act, answers[1..]) == Progress(e, act, answers[1..]);
      }
    }
  }

  /** Whatever write of the Retired record a crash falls into before it is published, the next recovery
   *  whose looks work answers that an operator is needed, keeps the record, and leaves the original whole
   *  in the trash.
   */
  lemma CrashWhileRetiringIsAmbiguous(d: Disk, job: Job, at: Install, answers: seq<Answer>)
    requires at in {Log(Retired, Open), Log(Retired, Sync), Log(Retired, Publish)}
    requires Accounted(d, job, Installing(at)) && job.Sound()
    requires |answers| >= 2 && answers[0] == Works && answers[1] == Works
    ensures
      var p := Drive(d, job.req, Recovering(d.journal[job.req.key], Look), answers);
      && BytesAt(p.disk, job.req.trash) == Some(job.original) && p.disk.journal == d.journal
      && (|answers| >= 4 ==> p.act == Ended(Resolved(NeedsOperator)))
  {
    var rec := d.journal[job.req.key];
    assert rec == RecordOf(job.req, Granted) && rec.final !in d.files;
    assert Accounted(d, job, Recovering(rec, Look));
    assert answers[1..][1..] == answers[2..];
    assert Drive(d, job.req, Recovering(rec, Look), answers)
      == Drive(d, job.req, Recovering(rec, LookAgain(false)), answers[1..]);
    assert Drive(d, job.req, Recovering(rec, LookAgain(false)), answers[1..])
      == Drive(d, job.req, Recovering(rec, DropTemp(NeedsOperator)), answers[2..]);
    StepKeepsAccounted(d, job, Recovering(rec, Look), Works);
    StepKeepsAccounted(d, job, Recovering(rec, LookAgain(false)), Works);
    DriveKeepsTheVerdict(d, job, rec, DropTemp(NeedsOperator), answers[2..]);
    if |answers| >= 4 { GivesUpInTwo(d, job.req, rec, answers[2..]); }
  }

  lemma GivesUpInTwo(d: Disk, req: Request, rec: Record, answers: seq<Answer>)
    requires |answers| >= 2
    ensures Drive(d, req, Recovering(rec, DropTemp(NeedsOperator)), answers).act == Ended(Resolved(NeedsOperator))
  {
    var e := Removed(d, rec.temp, answers[0]);
    assert Drive(d, req, Recovering(rec, DropTemp(NeedsOperator)), answers)
      == Drive(e, req, Recovering(rec, Forget(NeedsOperator)), answers[1..]);
    assert Drive(e, req, Recovering(rec, Forget(NeedsOperator)), answers[1..])
      == Drive(e, req, Ended(Resolved(NeedsOperator)), answers[1..][1..]);
  }

  // ------------------------------------------------------------------------------- in a run

  /** In every run, an install that resolves tells the truth, and leaves no record behind. */
  lemma InstallsAreTruthful(plan: Plan, s: State, events: seq<Event>, k: Key, a: Answer, verdict: Resolution)
    requires WellFormed(plan) && Initial(plan, s) && k in plan
    requires Run(plan, s, events).acts[k].Installing?
    requires Next(plan, Run(plan, s, events), Call(k, a)).acts[k] == Ended(Resolved(verdict))
    ensures
      var u := Next(plan, Run(plan, s, events), Call(k, a));
      Truthful(u.disk, plan[k], verdict) && k !in u.disk.journal
  {
    RunFromTheStartIsSafe(plan, s, events);
    InstallCallIsTruthful(plan, Run(plan, s, events), k, a, verdict);
  }

  lemma InstallCallIsTruthful(plan: Plan, t: State, k: Key, a: Answer, verdict: Resolution)
    requires k in plan && plan[k].Sound() && plan[k].req.key == k && t.acts.Keys == plan.Keys
    requires Accounted(t.disk, plan[k], t.acts[k]) && t.acts[k].Installing?
    requires Next(plan, t, Call(k, a)).acts[k] == Ended(Resolved(verdict))
    ensures
      var u := Next(plan, t, Call(k, a));
      Truthful(u.disk, plan[k], verdict) && k !in u.disk.journal
  {
    InstallResolvesTruthfully(t.disk, plan[k], t.acts[k].at, a, verdict);
  }

  /** A call that renames the original back to its place. */
  predicate PutsBack(plan: Plan, t: State, e: Event, k: Key)
    requires k in plan && k in t.acts
  {
    && e == Call(k, Works) && plan[k].req.trash in t.disk.files
    && (t.acts[k] == Installing(PutBack) || (t.acts[k].Recovering? && t.acts[k].where.Restore?))
  }

  /** A call that removes a job's record. */
  predicate Clears(t: State, e: Event, k: Key)
    requires k in t.acts
  {
    && e == Call(k, Works) && k in t.disk.journal
    && match t.acts[k]
       case Installing(at) => at.ClearLog?
       case Recovering(_, where) => where.Forget? && where.verdict.IsResolved()
       case _ => false
  }

  lemma InstallChangesStale(d: Disk, job: Job, at: Install, a: Answer)
    requires Accounted(d, job, Installing(at)) && job.Sound()
    ensures
      Stale(InstallStep(d, job.req, at, a).0, job) <==>
        || (a == Works && at == PutBack && job.req.trash in d.files)
        || (Stale(d, job) && !(a == Works && at.ClearLog? && job.req.key in d.journal))
  {
    if at.Log? {
      assert WriteStep(d, RecordOf(job.req, at.phase), at.write).files == d.files;
    } else {
      MoveMovesTheOriginal(d, job);
    }
  }

  lemma RecoveryChangesStale(d: Disk, job: Job, rec: Record, where: Recovery, a: Answer)
    requires Accounted(d, job, Recovering(rec, where)) && job.Sound()
    ensures
      Stale(RecoveryStep(d, rec, where, a).0, job) <==>
        || (a == Works && where.Restore? && job.req.trash in d.files)
        || (Stale(d, job) && !(a == Works && where.Forget? && where.verdict.IsResolved() && job.req.key in d.journal))
  {
    MoveMovesTheOriginal(d, job);
  }

  lemma CallChangesStale(plan: Plan, t: State, k: Key, a: Answer)
    requires k in plan && t.acts.Keys == plan.Keys && plan[k].req.key == k
    requires Accounted(t.disk, plan[k], t.acts[k]) && plan[k].Sound()
    ensures
      var e := Call(k, a);
      Stale(Next(plan, t, e).disk, plan[k]) <==>
        PutsBack(plan, t, e, k) || (Stale(t.disk, plan[k]) && !Clears(t, e, k))
  {
    match t.acts[k]
    case Installing(at) => InstallChangesStale(t.disk, plan[k], at, a);
    case Recovering(rec, where) => RecoveryChangesStale(t.disk, plan[k], rec, where, a);
    case _ =>
  }

  lemma EventChangesStale(plan: Plan, t: State, e: Event, k: Key)
    requires WellFormed(plan) && Safe(plan, t) && k in plan
    ensures Stale(Next(plan, t, e).disk, plan[k]) <==>
      PutsBack(plan, t, e, k) || (Stale(t.disk, plan[k]) && !Clears(t, e, k))
  {
    if e.Call? && e.key == k {
      CallChangesStale(plan, t, k, e.answer);
    } else if e == Vanish(k) {
      assert CanResume(t.acts[k]) && PlaceOf(t.disk, plan[k]) == Swapped
        ==> BytesAt(Next(plan, t, e).disk, plan[k].req.final) == None;
    } else {
      OthersLeaveAJobAlone(plan, t, e, k);
      SameDiskSamePlace(t.disk, Next(plan, t, e).disk, plan[k]);
    }
  }

  ghost predicate PutsBackAt(plan: Plan, s: State, events: seq<Event>, k: Key, i: nat)
    requires k in plan && s.acts.Keys == plan.Keys && i < |events|
  {
    PutsBack(plan, Run(plan, s, events[..i]), events[i], k)
  }

  ghost predicate ClearsAt(plan: Plan, s: State, events: seq<Event>, k: Key, i: nat)
    requires k in plan && s.acts.Keys == plan.Keys && i < |events|
  {
    Clears(Run(plan, s, events[..i]), events[i], k)
  }

  ghost predicate NotClearedAfter(plan: Plan, s: State, events: seq<Event>, k: Key, i: nat)
    requires k in plan && s.acts.Keys == plan.Keys
  {
    forall m | i < m < |events| :: !ClearsAt(plan, s, events, k, m)
  }

  /** The original has been put back since its record was last removed. */
  ghost predicate PutBackSinceCleared(plan: Plan, s: State, events: seq<Event>, k: Key)
    requires k in plan && s.acts.Keys == plan.Keys
  {
    exists i | 0 <= i < |events| :: PutsBackAt(plan, s, events, k, i) && NotClearedAfter(plan, s, events, k, i)
  }

  lemma SamePast(plan: Plan, s: State, events: seq<Event>, k: Key, i: nat)
    requires k in plan && s.acts.Keys == plan.Keys && i < |events| - 1
    ensures PutsBackAt(plan, s, events[..|events| - 1], k, i) == PutsBackAt(plan, s, events, k, i)
    ensures ClearsAt(plan, s, events[..|events| - 1], k, i) == ClearsAt(plan, s, events, k, i)
  {
    assert events[..|events| - 1][..i] == events[..i] && events[..|events| - 1][i] == events[i];
  }

  lemma NotClearedGrows(plan: Plan, s: State, events: seq<Event>, k: Key, i: nat)
    requires k in plan && s.acts.Keys == plan.Keys && i < |events| - 1
    ensures NotClearedAfter(plan, s, events, k, i) <==>
      NotClearedAfter(plan, s, events[..|events| - 1], k, i) && !ClearsAt(plan, s, events, k, |events| - 1)
  {
    var n := |events| - 1;
    forall m: nat | m < n ensures ClearsAt(plan, s, events[..n], k, m) == ClearsAt(plan, s, events, k, m) {
      SamePast(plan, s, events, k, m);
    }
  }

  lemma PutBackGrows(plan: Plan, s: State, events: seq<Event>, k: Key)
    requires k in plan && s.acts.Keys == plan.Keys && events != []
    ensures
      var n := |events| - 1;
      PutBackSinceCleared(plan, s, events, k) <==>
        || PutsBackAt(plan, s, events, k, n)
        || (PutBackSinceCleared(plan, s, events[..n], k) && !ClearsAt(plan, s, events, k, n))
  {
    var n := |events| - 1;
    forall i: nat | i < n
      ensures PutsBackAt(plan, s, events[..n], k, i) == PutsBackAt(plan, s, events, k, i)
      ensures NotClearedAfter(plan, s, events, k, i) <==>
        NotClearedAfter(plan, s, events[..n], k, i) && !ClearsAt(plan, s, events, k, n)
    {
      SamePast(plan, s, events, k, i);
      NotClearedGrows(plan, s, events, k, i);
    }
    assert NotClearedAfter(plan, s, events, k, n);
  }

  /** A record is stale if and only if its original has been put back since the record was last removed. */
  lemma {:induction false} StaleExactlySincePuttingBack(plan: Plan, s: State, events: seq<Event>, k: Key)
    requires WellFormed(plan) && Initial(plan, s) && k in plan
    ensures Stale(Run(plan, s, events).disk, plan[k]) <==> PutBackSinceCleared(plan, s, events, k)
  {
    if events == [] {
      assert !PutBackSinceCleared(plan, s, events, k);
    } else {
      var n := |events| - 1;
      StaleExactlySincePuttingBack(plan, s, events[..n], k);
      LastEventChangesStale(plan, s, events, k);
      PutBackGrows(plan, s, events, k);
    }
  }

  lemma LastEventChangesStale(plan: Plan, s: State, events: seq<Event>, k: Key)
    requires WellFormed(plan) && Initial(plan, s) && k in plan && events != []
    ensures
      var n := |events| - 1;
      Stale(Run(plan, s, events).disk, plan[k]) <==>
        || PutsBackAt(plan, s, events, k, n)
        || (Stale(Run(plan, s, events[..n]).disk, plan[k]) && !ClearsAt(plan, s, events, k, n))
  {
    var n := |events| - 1;
    RunFromTheStartIsSafe(plan, s, events[..n]);
    EventChangesStale(plan, Run(plan, s, events[..n]), events[n], k);
  }

  /** The answers a job's own calls were given. */
  function AnswersOf(events: seq<Event>, k: Key): seq<Answer> {
    if events == [] then []
    else AnswersOf(events[..|events| - 1], k) + AnswerIn(events[|events| - 1], k)
  }

  function AnswerIn(e: Event, k: Key): seq<Answer> {
    if e.Call? && e.key == k then [e.answer] else []
  }

  lemma {:induction false} DriveOneMore(d: Disk, req: Request, act: Activity, answers: seq<Answer>, a: Answer)
    ensures
      var p := Drive(d, req, act, answers);
      && (!p.act.Ended? ==> p.answers == [])
      && (!p.act.Ended? ==>
            var (e, next) := StepJob(p.disk, req, p.act, a);
            Drive(d, req, act, answers + [a]) == Progress(e, next, []))
    decreases |answers|
  {
    if !act.Ended? {
      if answers == [] {
        var (e, next) := StepJob(d, req, act, a);
        assert ([] + [a])[1..] == [];
        assert Drive(d, req, act, [] + [a]) == Drive(e, req, next, []);
      } else {
        var (e, next) := StepJob(d, req, act, answers[0]);
        assert (answers + [a])[1..] == answers[1..] + [a];
        DriveOneMore(e, req, next, answers[1..], a);
      }
    }
  }

  lemma RecoveryStepSame(d: Disk, e: Disk, job: Job, rec: Record, where: Recovery, a: Answer)
    requires SameFor(d, e, job) && rec == RecordOf(job.req, rec.phase)
    ensures RecoveryStep(d, rec, where, a).1 == RecoveryStep(e, rec, where, a).1
    ensures SameFor(RecoveryStep(d, rec, where, a).0, RecoveryStep(e, rec, where, a).0, job)
  {
    assert job.req.temp in job.Paths() && job.req.final in job.Paths() && job.req.trash in job.Paths();
    assert BytesAt(d, job.req.final) == BytesAt(e, job.req.final);
    assert BytesAt(d, job.req.trash) == BytesAt(e, job.req.trash);
    assert BytesAt(d, job.req.temp) == BytesAt(e, job.req.temp);
  }

  /** Nothing in these events begins the job's recovery again, or ends the process. */
  ghost predicate Undisturbed(events: seq<Event>, k: Key) {
    forall i | 0 <= i < |events| :: events[i] != Resume(k) && events[i] != Crash
  }

  /** Whatever other jobs do meanwhile, a recovery in a run is the recovery driven alone. */
  lemma {:induction false} RecoveryInARun(plan: Plan, t: State, mid: seq<Event>, k: Key)
    requires WellFormed(plan) && Safe(plan, t) && k in plan && t.acts[k].Recovering? && Undisturbed(mid, k)
    requires !Run(plan, t, mid).acts[k].Ended?
    ensures
      var p := Drive(t.disk, plan[k].req, t.acts[k], AnswersOf(mid, k));
      && Run(plan, t, mid).acts[k].Recovering?
      && p.act == Run(plan, t, mid).acts[k] && SameFor(Run(plan, t, mid).disk, p.disk, plan[k])
  {
    if mid != [] {
      var n := |mid| - 1;
      var most := mid[..n];
      assert forall i | 0 <= i < n :: most[i] == mid[i];
      RunKeepsSafe(plan, t, most);
      var u := Run(plan, t, most);
      if u.acts[k].Ended? { EndedStaysInARun(plan, u, mid[n], k); }
      RecoveryInARun(plan, t, most, k);
      assert AnswersOf(mid, k) == AnswersOf(most, k) + AnswerIn(mid[n], k);
      OneMoreEvent(plan, u, mid[n], k, t.disk, t.acts[k], AnswersOf(most, k));
    }
  }

  lemma OneMoreEvent(plan: Plan, u: State, e: Event, k: Key, d: Disk, act: Activity, answers: seq<Answer>)
    requires WellFormed(plan) && Safe(plan, u) && k in plan && u.acts[k].Recovering? && e != Resume(k) && e != Crash
    requires !Next(plan, u, e).acts[k].Ended?
    requires var p := Drive(d, plan[k].req, act, answers); p.act == u.acts[k] && SameFor(u.disk, p.disk, plan[k])
    ensures
      var p, t := Drive(d, plan[k].req, act, answers + AnswerIn(e, k)), Next(plan, u, e);
      t.acts[k].Recovering? && p.act == t.acts[k] && SameFor(t.disk, p.disk, plan[k])
  {
    OneEventOfARun(plan, u, e, k, Drive(d, plan[k].req, act, answers).disk);
    if e.Call? && e.key == k {
      DriveOneMore(d, plan[k].req, act, answers, e.answer);
      assert Next(plan, u, e).acts[k] == StepJob(u.disk, plan[k].req, u.acts[k], e.answer).1;
      StillRecovering(u.disk, plan[k].req, u.acts[k], e.answer);
    } else {
      assert answers + AnswerIn(e, k) == answers;
    }
  }

  lemma StillRecovering(d: Disk, req: Request, act: Activity, a: Answer)
    requires act.Recovering? && !StepJob(d, req, act, a).1.Ended?
    ensures StepJob(d, req, act, a).1.Recovering?
  {
  }

  lemma EndedStaysInARun(plan: Plan, u: State, e: Event, k: Key)
    requires u.acts.Keys == plan.Keys && k in plan && e != Resume(k) && e != Crash && u.acts[k].Ended?
    ensures Next(plan, u, e).acts[k].Ended?
  {
  }

  lemma OneEventOfARun(plan: Plan, u: State, e: Event, k: Key, d: Disk)
    requires WellFormed(plan) && Safe(plan, u) && k in plan && u.acts[k].Recovering? && e != Resume(k) && e != Crash
    requires SameFor(u.disk, d, plan[k])
    ensures e.Call? && e.key == k ==>
      var (f, act) := StepJob(d, plan[k].req, u.acts[k], e.answer);
      Next(plan, u, e).acts[k] == act && SameFor(Next(plan, u, e).disk, f, plan[k])
    ensures !(e.Call? && e.key == k) ==>
      Next(plan, u, e).acts[k] == u.acts[k] && SameFor(Next(plan, u, e).disk, d, plan[k])
  {
    if e.Call? && e.key == k {
      assert Accounted(u.disk, plan[k], u.acts[k]);
      OneCallOfItsOwn(plan, u, k, e.answer, d);
    } else if e == Vanish(k) {
      assert Next(plan, u, e) == u;
    } else {
      OthersLeaveAJobAlone(plan, u, e, k);
      OthersDoNotActForIt(plan, u, e, k);
    }
  }

  lemma OneCallOfItsOwn(plan: Plan, u: State, k: Key, a: Answer, d: Disk)
    requires u.acts.Keys == plan.Keys && k in plan && u.acts[k].Recovering?
    requires u.acts[k].rec == RecordOf(plan[k].req, u.acts[k].rec.phase) && SameFor(u.disk, d, plan[k])
    ensures
      var (f, act) := StepJob(d, plan[k].req, u.acts[k], a);
      Next(plan, u, Call(k, a)).acts[k] == act && SameFor(Next(plan, u, Call(k, a)).disk, f, plan[k])
  {
    RecoveryStepSame(u.disk, d, plan[k], u.acts[k].rec, u.acts[k].where, a);
  }

  lemma OthersDoNotActForIt(plan: Plan, u: State, e: Event, k: Key)
    requires u.acts.Keys == plan.Keys && k in plan && u.acts[k].Recovering?
    requires e != Resume(k) && e != Crash && !(e.Call? && e.key == k)
    ensures Next(plan, u, e).acts[k] == u.acts[k]
  {
  }

  /** A recovery in a run that resolves tells the truth exactly when it could be trusted as it began. */
  lemma RecoveryInARunTellsTheTruth(plan: Plan, u: State, mid: seq<Event>, k: Key, a: Answer, verdict: Resolution)
    requires WellFormed(plan) && Safe(plan, u) && k in plan && Undisturbed(mid, k)
    requires u.acts[k].Recovering? && u.acts[k].where == Look
    requires !Run(plan, u, mid).acts[k].Ended?
    requires Next(plan, Run(plan, u, mid), Call(k, a)).acts[k] == Ended(Resolved(verdict))
    ensures
      var answers := AnswersOf(mid, k) + [a];
      && |answers| >= 2
      && (Truthful(Next(plan, Run(plan, u, mid), Call(k, a)).disk, plan[k], verdict) <==>
            CanBeTrusted(u.disk, plan[k], answers[0], answers[1]))
  {
    var last, job := Run(plan, u, mid), plan[k];
    RunKeepsSafe(plan, u, mid);
    RecoveryInARun(plan, u, mid, k);
    var p := Drive(u.disk, job.req, u.acts[k], AnswersOf(mid, k));
    DriveOneMore(u.disk, job.req, u.acts[k], AnswersOf(mid, k), a);
    OneEventOfARun(plan, last, Call(k, a), k, p.disk);
    var q := Drive(u.disk, job.req, u.acts[k], AnswersOf(mid, k) + [a]);
    SameDiskSamePlace(Next(plan, last, Call(k, a)).disk, q.disk, job);
    RecoveryTellsTheTruthExactlyWhen(u.disk, job, u.acts[k].rec, AnswersOf(mid, k) + [a]);
  }

  /** In every run, a recovery begun after some events and never begun again before it resolved says what
   *  is so if and only if the original had not been put back since its record was last removed, and its
   *  looks could see what there was.
   */
  lemma VerdictsAreTruthfulExactlyWhen(
      plan: Plan, s: State, before: seq<Event>, t: State, mid: seq<Event>, last: State, k: Key, a: Answer,
      verdict: Resolution)
    requires WellFormed(plan) && Initial(plan, s) && k in plan
    requires t == Run(plan, s, before) && CanResume(t.acts[k]) && k in t.disk.journal
    requires Undisturbed(mid, k) && last == Run(plan, Next(plan, t, Resume(k)), mid) && !last.acts[k].Ended?
    requires Next(plan, last, Call(k, a)).acts[k] == Ended(Resolved(verdict))
    ensures
      var answers := AnswersOf(mid, k) + [a];
      && |answers| >= 2
      && (Truthful(Next(plan, last, Call(k, a)).disk, plan[k], verdict) <==>
            && !PutBackSinceCleared(plan, s, before, k)
            && (PlaceOf(t.disk, plan[k]) == Home ==> answers[0] == Works)
            && (PlaceOf(t.disk, plan[k]) == Swapped ==> answers[0] == Works || answers[1] == Works))
  {
    RunFromTheStartIsSafe(plan, s, before);
    NextKeepsSafe(plan, t, Resume(k));
    RecoveryInARunTellsTheTruth(plan, Next(plan, t, Resume(k)), mid, k, a, verdict);
    StaleExactlySincePuttingBack(plan, s, before, k);
  }

  // -------------------------------------------------------------- a run that ends in a falsehood

  /** Some calls of one job, answered in turn. */
  function Calls(k: Key, answers: seq<Answer>): seq<Event> {
    if answers == [] then [] else [Call(k, answers[0])] + Calls(k, answers[1..])
  }

  lemma {:induction false} RunInTwo(plan: Plan, s: State, a: seq<Event>, b: seq<Event>)
    requires s.acts.Keys == plan.Keys
    ensures Run(plan, s, a + b) == Run(plan, Run(plan, s, a), b)
  {
    if b == [] {
      assert a + b == a;
    } else {
      assert (a + b)[..|a + b| - 1] == a + b[..|b| - 1];
      RunInTwo(plan, s, a, b[..|b| - 1]);
    }
  }

  /** Calls of one job alone are that job driven. */
  lemma {:induction false} CallsAreADrive(plan: Plan, s: State, k: Key, answers: seq<Answer>)
    requires s.acts.Keys == plan.Keys && k in plan
    ensures
      var p := Drive(s.disk, plan[k].req, s.acts[k], answers);
      Run(plan, s, Calls(k, answers)) == State(p.disk, s.acts[k := p.act])
    decreases |answers|
  {
    if answers == [] {
      assert s.acts[k := s.acts[k]] == s.acts;
    } else {
      var first, rest := Call(k, answers[0]), answers[1..];
      assert Calls(k, answers) == [first] + Calls(k, rest);
      RunInTwo(plan, s, [first], Calls(k, rest));
      assert [first][..0] == [];
      var t := Next(plan, s, first);
      assert Run(plan, s, [first]) == t;
      CallsAreADrive(plan, t, k, rest);
    }
  }

  /** Working calls bring an install to the rename that puts the replacement in place. */
  lemma {:induction false} OnTrackReachesPut(d: Disk, job: Job, at: Install, answers: seq<Answer>)
    requires OnTrack(d, job, at) && CallsLeft(at) >= CallsLeft(Put)
    requires AllWork(answers) && |answers| == CallsLeft(at) - CallsLeft(Put)
    ensures
      var p := Drive(d, job.req, Installing(at), answers);
      p.act == Installing(Put) && Accounted(p.disk, job, Installing(Put))
    decreases |answers|
  {
    if answers != [] {
      StayOnTrack(d, job, at);
      var (e, act) := InstallStep(d, job.req, at, Works);
      OnTrackReachesPut(e, job, act.at, answers[1..]);
    }
  }

  /** The install fails at its last rename and puts the original back. */
  lemma PutFailsAndIsUndone(d: Disk, job: Job)
    requires Accounted(d, job, Installing(Put)) && job.Sound()
    ensures
      var p := Drive(d, job.req, Installing(Put), [Fails, Works]);
      p.act == Installing(ClearLog(SourceRestored)) && Accounted(p.disk, job, p.act)
  {
    MoveMovesTheOriginal(d, job);
    var e := Moved(d, job.req.trash, job.req.final);
    assert [Fails, Works][1..] == [Works] && [Works][1..] == [];
    assert Drive(d, job.req, Installing(Put), [Fails, Works]) == Drive(d, job.req, Installing(PutBack), [Works]);
    assert Drive(d, job.req, Installing(PutBack), [Works])
      == Drive(e, job.req, Installing(ClearLog(SourceRestored)), []);
    InstallKeepsAccounted(d, job, PutBack, Works);
  }

  /** Recovery of such a record says "installed". */
  lemma StaleRecordIsCalledInstalled(d: Disk, job: Job, rec: Record, answers: seq<Answer>)
    requires Accounted(d, job, Recovering(rec, Look)) && job.Sound() && Stale(d, job)
    requires AllWork(answers) && |answers| == 5
    ensures
      var p := Drive(d, job.req, Recovering(rec, Look), answers);
      p.act == Ended(Resolved(Landed)) && PlaceOf(p.disk, job) == Home
  {
    RecoveryIgnoresTheRequest(d, Owner(rec), job.req, rec, Look, answers);
    RecoverySucceeds(d, rec, answers);
    RecoveryTellsTheTruthExactlyWhen(d, job, rec, answers);
    FiveCallsAreEnough(d, job, rec, answers);
    DriveKeepsAccounted(d, job, Recovering(rec, Look), answers);
    var p := Drive(d, job.req, Recovering(rec, Look), answers);
    assert p.disk == Healed(d, rec);
  }

  lemma FiveCallsAreEnough(d: Disk, job: Job, rec: Record, answers: seq<Answer>)
    requires Accounted(d, job, Recovering(rec, Look)) && Stale(d, job) && AllWork(answers) && |answers| == 5
    ensures Drive(d, job.req, Recovering(rec, Look), answers).act.Ended?
  {
    var e := Removed(d, rec.temp, Works);
    var f := Cleared(e, rec.key);
    assert Drive(d, job.req, Recovering(rec, Look), answers)
      == Drive(d, job.req, Recovering(rec, LookAgain(true)), answers[1..]);
    assert answers[1..][1..] == answers[2..] && answers[2..][1..] == answers[3..] && answers[3..][1..] == answers[4..];
    assert Drive(d, job.req, Recovering(rec, LookAgain(true)), answers[1..])
      == Drive(d, job.req, Recovering(rec, DropTemp(Landed)), answers[2..]);
    assert Drive(d, job.req, Recovering(rec, DropTemp(Landed)), answers[2..])
      == Drive(e, job.req, Recovering(rec, Forget(Landed)), answers[3..]);
    assert Drive(e, job.req, Recovering(rec, Forget(Landed)), answers[3..])
      == Drive(f, job.req, Recovering(rec, SyncForget(Landed)), answers[4..]);
    assert Drive(f, job.req, Recovering(rec, SyncForget(Landed)), answers[4..])
      == Drive(f, job.req, Ended(Resolved(Landed)), answers[4..][1..]);
  }

  const WORK5: seq<Answer> := [Works, Works, Works, Works, Works]
  const WORK13: seq<Answer> := WORK5 + WORK5 + [Works, Works, Works]

  /** Thirteen calls that work, the rename that fails, the one that undoes it; and, after a crash, the five
   *  of a recovery.
   */
  function TheFalseRun(k: Key): seq<Event> {
    [Begin(k)] + Calls(k, WORK13) + Calls(k, [Fails, Works]) + [Crash, Resume(k)] + Calls(k, WORK5)
  }

  /** The install of that run has put the original back, and has not removed its record. */
  lemma TheInstallIsUndone(plan: Plan, s: State, k: Key)
    requires WellFormed(plan) && Initial(plan, s) && k in plan
    requires plan[k].req.temp in s.disk.files
    requires plan[k].req.guard.Matches(s.disk.files[plan[k].req.final].stat)
    ensures
      var t := Run(plan, Run(plan, Next(plan, s, Begin(k)), Calls(k, WORK13)), Calls(k, [Fails, Works]));
      t.acts[k] == Installing(ClearLog(SourceRestored)) && Accounted(t.disk, plan[k], t.acts[k])
  {
    var s1 := Next(plan, s, Begin(k));
    assert OnTrack(s1.disk, plan[k], CheckDevice);
    OnTrackReachesPut(s1.disk, plan[k], CheckDevice, WORK13);
    CallsAreADrive(plan, s1, k, WORK13);
    var s2 := Run(plan, s1, Calls(k, WORK13));
    PutFailsAndIsUndone(s2.disk, plan[k]);
    CallsAreADrive(plan, s2, k, [Fails, Works]);
  }

  /** A recovery that begins on such a disk says "installed". */
  lemma TheRecoveryIsFooled(plan: Plan, u: State, k: Key, rec: Record)
    requires WellFormed(plan) && u.acts.Keys == plan.Keys && k in plan
    requires u.acts[k] == Recovering(rec, Look) && Accounted(u.disk, plan[k], u.acts[k]) && Stale(u.disk, plan[k])
    ensures
      var t := Run(plan, u, Calls(k, WORK5));
      t.acts[k] == Ended(Resolved(Landed)) && PlaceOf(t.disk, plan[k]) == Home
  {
    StaleRecordIsCalledInstalled(u.disk, plan[k], rec, WORK5);
    CallsAreADrive(plan, u, k, WORK5);
  }

  lemma ACrashBeforeTheClear(plan: Plan, t: State, k: Key)
    requires WellFormed(plan) && t.acts.Keys == plan.Keys && k in plan
    requires t.acts[k] == Installing(ClearLog(SourceRestored)) && Accounted(t.disk, plan[k], t.acts[k])
    ensures
      var u := Next(plan, Next(plan, t, Crash), Resume(k));
      && u.disk == t.disk && u.acts.Keys == plan.Keys && u.acts[k] == Recovering(t.disk.journal[k], Look)
      && Accounted(u.disk, plan[k], u.acts[k]) && Stale(u.disk, plan[k])
  {
    StaleBeforeTheClear(t.disk, plan[k]);
  }

  lemma StaleBeforeTheClear(d: Disk, job: Job)
    requires Accounted(d, job, Installing(ClearLog(SourceRestored)))
    ensures Stale(d, job) && job.req.key in d.journal
    ensures Accounted(d, job, Recovering(d.journal[job.req.key], Look))
  {
  }

  /** From every initial state, of every plan, that run ends with recovery saying "installed" while the
   *  original is at the destination and the replacement nowhere.
   */
  lemma TheFalseVerdictIsReached(plan: Plan, s: State, k: Key)
    requires WellFormed(plan) && Initial(plan, s) && k in plan
    requires plan[k].req.temp in s.disk.files
    requires plan[k].req.guard.Matches(s.disk.files[plan[k].req.final].stat)
    ensures
      var t := Run(plan, s, TheFalseRun(k));
      && t.acts[k] == Ended(Resolved(Landed)) && PlaceOf(t.disk, plan[k]) == Home
      && !Truthful(t.disk, plan[k], Landed)
  {
    var b, c := Calls(k, WORK13), Calls(k, [Fails, Works]);
    TheInstallIsUndone(plan, s, k);
    var t := Run(plan, Run(plan, Next(plan, s, Begin(k)), b), c);
    ACrashBeforeTheClear(plan, t, k);
    TheRecoveryIsFooled(plan, Next(plan, Next(plan, t, Crash), Resume(k)), k, t.disk.journal[k]);
    RunInParts(plan, s, k, b, c, Calls(k, WORK5));
  }

  lemma TwoEvents(plan: Plan, s: State, e: Event, f: Event)
    requires s.acts.Keys == plan.Keys
    ensures Run(plan, s, [e, f]) == Next(plan, Next(plan, s, e), f)
  {
    assert [e][..0] == [] && Run(plan, s, [e]) == Next(plan, s, e);
    assert [e, f][..1] == [e];
  }

  lemma RunInParts(plan: Plan, s: State, k: Key, b: seq<Event>, c: seq<Event>, d: seq<Event>)
    requires s.acts.Keys == plan.Keys
    ensures
      var t := Run(plan, Run(plan, Next(plan, s, Begin(k)), b), c);
      Run(plan, s, [Begin(k)] + b + c + [Crash, Resume(k)] + d)
        == Run(plan, Next(plan, Next(plan, t, Crash), Resume(k)), d)
  {
    var a := [Begin(k)];
    assert a[..0] == [] && Run(plan, s, a) == Next(plan, s, Begin(k));
    RunInTwo(plan, s, a, b);
    RunInTwo(plan, s, a + b, c);
    var t := Run(plan, s, a + b + c);
    TwoEvents(plan, t, Crash, Resume(k));
    RunInTwo(plan, s, a + b + c, [Crash, Resume(k)]);
    RunInTwo(plan, s, a + b + c + [Crash, Resume(k)], d);
  }
}
