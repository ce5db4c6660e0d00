/** What the ritual and its recovery promise a caller, over every schedule of failures and crashes. */
module RitualRecovery {
  import opened Optional
  import opened Ritual
  import opened RitualRuns
  import opened CommitRitual

  // ------------------------------------------------------------------------ under any failures

  lemma {:induction false} DriveKeepsAccounted(d: Disk, job: Job, act: Activity, answers: seq<Answer>)
    requires Accounted(d, job, act) && job.Sound()
    ensures var p := Drive(d, job.req, act, answers); Accounted(p.disk, job, p.act)
    decreases |answers|
  {
    if !act.Ended? && answers != [] {
      StepKeepsAccounted(d, job, act, answers[0]);
      var (d', act') := StepJob(d, job.req, act, answers[0]);
      DriveKeepsAccounted(d', job, act', answers[1..]);
    }
  }

  lemma {:induction false} DriveIsLocal(d: Disk, job: Job, act: Activity, answers: seq<Answer>, other: Job)
    requires act.Recovering? ==> act.rec == RecordOf(job.req, act.rec.phase)
    requires job.Paths() !! other.Paths() && job.req.key != other.req.key
    ensures SameFor(d, Drive(d, job.req, act, answers).disk, other)
    decreases |answers|
  {
    if !act.Ended? && answers != [] {
      StepIsLocal(d, job, act, answers[0], other);
      var (d', act') := StepJob(d, job.req, act, answers[0]);
      DriveIsLocal(d', job, act', answers[1..], other);
    }
  }

  /** The whole promise of one commit, for every schedule: wherever it stops the original is in
   *  exactly one place, and whatever it says about the disk is so. */
  lemma CommitNeverLosesTheOriginal(d: Disk, job: Job, answers: seq<Answer>)
    requires Accounted(d, job, Installing(CheckDevice)) && job.Sound()
    ensures
      var p := Drive(d, job.req, Installing(CheckDevice), answers);
      var final, trash := BytesAt(p.disk, job.req.final), BytesAt(p.disk, job.req.trash);
      && (final == Some(job.original)) != (trash == Some(job.original))
      && (p.act.Ended? && p.act.ending.Resolved? ==>
            Truthful(p.disk, job, p.act.ending.resolution) && job.req.key !in p.disk.journal)
  {
    DriveKeepsAccounted(d, job, Installing(CheckDevice), answers);
    InstallEndsTruthfully(d, job, CheckDevice, answers);
  }

  lemma {:induction false} InstallEndsTruthfully(d: Disk, job: Job, at: Install, answers: seq<Answer>)
    requires Accounted(d, job, Installing(at)) && job.Sound()
    ensures
      var p := Drive(d, job.req, Installing(at), answers);
      p.act.Ended? && p.act.ending.Resolved? ==>
        Truthful(p.disk, job, p.act.ending.resolution) && job.req.key !in p.disk.journal
    decreases |answers|
  {
    if answers != [] {
      InstallKeepsAccounted(d, job, at, answers[0]);
      var (d', act') := InstallStep(d, job.req, at, answers[0]);
      if act'.Installing? {
        InstallEndsTruthfully(d', job, act'.at, answers[1..]);
      } else if act'.ending.Resolved? {
        InstallResolvesTruthfully(d, job, at, answers[0], act'.ending.resolution);
      }
    }
  }

  predicate AllWork(answers: seq<Answer>) { forall i | 0 <= i < |answers| :: answers[i] == Works }

  /** How many system calls the successful path still has to make. */
  function CallsLeft(at: Install): nat {
    match at
    case CheckDevice => 20
    case CheckStaged => 19
    case Observe => 18
    case Log(phase, w) =>
      (match phase case Granted => 14 case Retired => 8 case Installed => 3)
      + (match w case Open => 3 case Sync => 2 case Publish => 1 case SyncDir => 0)
    case Harden => 13
    case Retire => 12
    case Put => 7
    case PutBack => 0
    case ClearLog(ending) => if ending == Landed then 2 else 0
    case SyncLog(ending) => if ending == Landed then 1 else 0
  }

  ghost predicate OnTrack(d: Disk, job: Job, at: Install) {
    && Accounted(d, job, Installing(at)) && job.Sound()
    && CallsLeft(at) > 0
    && (CallsLeft(at) >= 7 ==> job.req.temp in d.files)
    && (CallsLeft(at) >= 18 ==> job.req.guard.Matches(d.files[job.req.final].stat))
  }

  lemma StayOnTrack(d: Disk, job: Job, at: Install)
    requires OnTrack(d, job, at)
    ensures
      var (d', act') := InstallStep(d, job.req, at, Works);
      if CallsLeft(at) == 1 then act' == Ended(Resolved(Landed))
      else act'.Installing? && OnTrack(d', job, act'.at) && CallsLeft(act'.at) == CallsLeft(at) - 1
  {
    if at.Log? {
      LoggingStaysOnTrack(d, job, at);
    } else {
      InstallKeepsAccounted(d, job, at, Works);
      MoveMovesTheOriginal(d, job);
    }
  }

  lemma LoggingStaysOnTrack(d: Disk, job: Job, at: Install)
    requires at.Log? && OnTrack(d, job, at)
    ensures
      var (d', act') := InstallStep(d, job.req, at, Works);
      act'.Installing? && OnTrack(d', job, act'.at) && CallsLeft(act'.at) == CallsLeft(at) - 1
  {
    InstallKeepsAccounted(d, job, at, Works);
    assert WriteStep(d, RecordOf(job.req, at.phase), at.write).files == d.files;
  }

  /** The files the successful path still has ahead of it. */
  ghost function Ahead(d: Disk, job: Job, at: Install): map<Path, File>
    requires OnTrack(d, job, at)
  {
    var retired := if CallsLeft(at) >= 12 then Rename(d.files, job.req.final, job.req.trash) else d.files;
    if CallsLeft(at) >= 7 then Rename(retired, job.req.temp, job.req.final) else retired
  }

  /** A step of the successful path brings about what lay ahead of it. */
  lemma StepAhead(d: Disk, job: Job, at: Install)
    requires OnTrack(d, job, at)
    ensures
      var (e, act) := InstallStep(d, job.req, at, Works);
      && (act.Installing? ==> OnTrack(e, job, act.at) && Ahead(e, job, act.at) == Ahead(d, job, at))
      && (!act.Installing? ==> e.files == Ahead(d, job, at) && e.journal == d.journal - {job.req.key})
      && e.journal - {job.req.key} == d.journal - {job.req.key}
  {
    StayOnTrack(d, job, at);
  }

  lemma {:induction false} OnTrackLands(d: Disk, job: Job, at: Install, answers: seq<Answer>)
    requires OnTrack(d, job, at) && AllWork(answers) && |answers| >= CallsLeft(at)
    ensures
      var p := Drive(d, job.req, Installing(at), answers);
      && p.act == Ended(Resolved(Landed))
      && p.disk.files == Ahead(d, job, at) && p.disk.journal == d.journal - {job.req.key}
    decreases |answers|
  {
    StayOnTrack(d, job, at);
    var (d', act') := InstallStep(d, job.req, at, Works);
    StepAhead(d, job, at);
    if act'.Installing? {
      OnTrackLands(d', job, act'.at, answers[1..]);
    } else {
      assert Drive(d', job.req, act', answers[1..]) == Progress(d', act', answers[1..]);
    }
  }

  /** An install that nothing interrupts goes through: the replacement is at the destination, the
   *  original in the trash, and the journal is clean. */
  lemma UninterruptedCommitInstalls(d: Disk, job: Job, answers: seq<Answer>)
    requires Accounted(d, job, Installing(CheckDevice)) && job.Sound()
    requires job.req.temp in d.files && job.req.guard.Matches(d.files[job.req.final].stat)
    requires AllWork(answers) && |answers| >= 20
    ensures
      var p := Drive(d, job.req, Installing(CheckDevice), answers);
      && p.act == Ended(Resolved(Landed)) && job.req.key !in p.disk.journal
      && BytesAt(p.disk, job.req.final) == Some(job.replacement)
      && BytesAt(p.disk, job.req.trash) == Some(job.original)
  {
    OnTrackLands(d, job, CheckDevice, answers);
    CommitNeverLosesTheOriginal(d, job, answers);
  }

  /** The trash path is derived from the destination, so it keeps one original only: the second
   *  install over a file destroys what the first one kept. */
  lemma SecondInstallOverwritesTheTrash(d: Disk, first: Job, second: Job, answers: seq<Answer>)
    requires Accounted(d, first, Installing(CheckDevice)) && first.Sound() && second.Sound()
    requires first.req.final == second.req.final && first.req.trash == second.req.trash
    requires second.original == first.replacement && second.replacement != first.original
    requires first.req.key != second.req.key && second.req.key !in d.journal
    requires first.req.temp != second.req.temp && second.req.temp in d.files
    requires d.files[second.req.temp].bytes == second.replacement
    requires first.req.temp in d.files && first.req.guard.Matches(d.files[first.req.final].stat)
    requires second.req.guard.Matches(d.files[first.req.temp].stat)
    requires AllWork(answers) && |answers| >= 20
    ensures
      var one := Drive(d, first.req, Installing(CheckDevice), answers).disk;
      var two := Drive(one, second.req, Installing(CheckDevice), answers).disk;
      forall p | p in first.Paths() + second.Paths() :: BytesAt(two, p) != Some(first.original)
  {
    OnTrackLands(d, first, CheckDevice, answers);
    UninterruptedCommitInstalls(d, first, answers);
    var one := Drive(d, first.req, Installing(CheckDevice), answers).disk;
    UninterruptedCommitInstalls(one, second, answers);
    OnTrackLands(one, second, CheckDevice, answers);
  }

  lemma {:induction false} RecoveryIgnoresTheRequest(
      d: Disk, req: Request, other: Request, rec: Record, where: Recovery, answers: seq<Answer>)
    ensures Drive(d, req, Recovering(rec, where), answers) == Drive(d, other, Recovering(rec, where), answers)
    decreases |answers|
  {
    if answers != [] {
      var (d', act') := RecoveryStep(d, rec, where, answers[0]);
      if act'.Recovering? { RecoveryIgnoresTheRequest(d', req, other, rec, act'.where, answers[1..]); }
    }
  }

  lemma {:induction false} RecoveryStaysRecovery(
      d: Disk, req: Request, rec: Record, where: Recovery, answers: seq<Answer>)
    ensures var act := Drive(d, req, Recovering(rec, where), answers).act; act.Ended? || act.Recovering?
    decreases |answers|
  {
    if answers != [] {
      var (d', act') := RecoveryStep(d, rec, where, answers[0]);
      if act'.Recovering? { RecoveryStaysRecovery(d', req, rec, act'.where, answers[1..]); }
    }
  }

  /** Recovering one record, cut off anywhere, keeps every install of the plan accounted for. */
  lemma OneRecoveryOfMany(plan: Plan, d: Disk, rec: Record, answers: seq<Answer>)
    requires WellFormed(plan) && forall k | k in plan :: Accounted(d, plan[k], Stopped)
    requires rec.key in plan && rec.key in d.journal && d.journal[rec.key] == rec
    ensures
      var p := Drive(d, plan[rec.key].req, Recovering(rec, Look), answers);
      && (forall k | k in plan :: Accounted(p.disk, plan[k], Stopped))
      && (forall k | k in plan && k != rec.key :: SameFor(d, p.disk, plan[k]))
  {
    var job := plan[rec.key];
    var p := Drive(d, job.req, Recovering(rec, Look), answers);
    assert Accounted(d, job, Stopped);
    RecoveryStaysRecovery(d, job.req, rec, Look, answers);
    DriveKeepsAccounted(d, job, Recovering(rec, Look), answers);
    forall k | k in plan && k != rec.key ensures SameFor(d, p.disk, plan[k]) && Accounted(p.disk, plan[k], Stopped) {
      DriveIsLocal(d, job, Recovering(rec, Look), answers, plan[k]);
      SameDiskSameAccount(d, p.disk, plan[k], Stopped);
    }
  }

  lemma RecordsStay(plan: Plan, d: Disk, e: Disk, recs: seq<Record>)
    requires WellFormed(plan) && recs != [] && Sorted(recs)
    requires forall i | 0 <= i < |recs| ::
      recs[i].key in plan && recs[i].key in d.journal && d.journal[recs[i].key] == recs[i]
    requires forall k | k in plan && k != recs[0].key :: SameFor(d, e, plan[k])
    ensures forall i | 0 <= i < |recs[1..]| ::
      recs[1..][i].key in e.journal && e.journal[recs[1..][i].key] == recs[1..][i]
  {
    forall i | 0 <= i < |recs[1..]|
      ensures recs[1..][i].key in e.journal && e.journal[recs[1..][i].key] == recs[1..][i]
    {
      HeadIsBeforeAll(recs, i + 1);
      assert SameFor(d, e, plan[recs[i + 1].key]);
    }
  }

  /** A recovery pass under any failures, cut off anywhere, leaves every install of the plan
   *  accounted for. */
  lemma {:induction false} SweepNeverLosesAnOriginal(
      plan: Plan, d: Disk, recs: seq<Record>, answers: seq<Answer>, stop: bool)
    requires WellFormed(plan) && forall k | k in plan :: Accounted(d, plan[k], Stopped)
    requires Sorted(recs)
    requires forall i | 0 <= i < |recs| ::
      recs[i].key in plan && recs[i].key in d.journal && d.journal[recs[i].key] == recs[i]
    ensures forall k | k in plan :: Accounted(SweepOf(d, recs, answers, stop).disk, plan[k], Stopped)
    decreases |recs|
  {
    if recs != [] {
      var rec := recs[0];
      RecoveryIgnoresTheRequest(d, Owner(rec), plan[rec.key].req, rec, Look, answers);
      OneRecoveryOfMany(plan, d, rec, answers);
      var p := Drive(d, plan[rec.key].req, Recovering(rec, Look), answers);
      RecordsStay(plan, d, p.disk, recs);
      SweepNeverLosesAnOriginal(plan, p.disk, recs[1..], p.answers, stop);
    }
  }

  // ------------------------------------------------------------------- recovery without failures

  /** What the design's table says recovery concludes. */
  function Verdict(d: Disk, rec: Record): Resolution {
    if rec.final in d.files then (if rec.phase == Granted then SourceIntact else Landed)
    else if rec.phase != Granted && rec.trash in d.files then SourceRestored
    else NeedsOperator
  }

  /** What the disk looks like afterwards. */
  function Healed(d: Disk, rec: Record): Disk {
    var verdict := Verdict(d, rec);
    var files := if verdict == SourceRestored then Rename(d.files, rec.trash, rec.final) else d.files;
    d.(files := if verdict == NeedsOperator && rec.phase == Retired then files else files - {rec.temp},
       journal := if verdict.IsResolved() then d.journal - {rec.key} else d.journal)
  }

  predicate DistinctPaths(rec: Record) {
    rec.temp != rec.final && rec.final != rec.trash && rec.trash != rec.temp
  }

  lemma RecoverySucceeds(d: Disk, rec: Record, answers: seq<Answer>)
    requires AllWork(answers) && DistinctPaths(rec)
    ensures
      var p := Drive(d, Owner(rec), Recovering(rec, Look), answers);
      && AllWork(p.answers)
      && (p.act.Ended? ==> p.act == Ended(Resolved(Verdict(d, rec))) && p.disk == Healed(d, rec))
  {
    if answers != [] {
      var p := Drive(d, Owner(rec), Recovering(rec, Look), answers);
      var finalSeen, trashSeen := rec.final in d.files, rec.trash in d.files;
      assert p == Drive(d, Owner(rec), Recovering(rec, LookAgain(finalSeen)), answers[1..]);
      if |answers| > 1 {
        assert answers[1..][1..] == answers[2..];
        assert p == Drive(d, Owner(rec), Recovering(rec, Decide(rec, finalSeen, trashSeen)), answers[2..]);
        DecidedSucceeds(d, rec, answers[2..]);
      }
    }
  }

  lemma DecidedSucceeds(d: Disk, rec: Record, rest: seq<Answer>)
    requires AllWork(rest) && DistinctPaths(rec)
    ensures
      var p := Drive(d, Owner(rec), Recovering(rec, Decide(rec, rec.final in d.files, rec.trash in d.files)), rest);
      && AllWork(p.answers)
      && (p.act.Ended? ==> p.act == Ended(Resolved(Verdict(d, rec))) && p.disk == Healed(d, rec))
  {
    if rest != [] {
      var where := Decide(rec, rec.final in d.files, rec.trash in d.files);
      var p := Drive(d, Owner(rec), Recovering(rec, where), rest);
      match where
      case DropTemp(v) => DropAndForget(d, rec, v, rest);
      case Restore(b) =>
        if rest != [] {
          var d1 := Moved(d, rec.trash, rec.final);
          assert p == Drive(d1, Owner(rec), Recovering(rec, DropTemp(SourceRestored)), rest[1..]);
          DropAndForget(d1, rec, SourceRestored, rest[1..]);
        }
      case DropTempThenRestore =>
        if |rest| > 1 {
          var d1 := Removed(d, rec.temp, Works);
          assert p == Drive(d1, Owner(rec), Recovering(rec, Restore(false)), rest[1..]);
          var d2 := Moved(d1, rec.trash, rec.final);
          assert p == Drive(d2, Owner(rec), Recovering(rec, Forget(SourceRestored)), rest[2..]);
          ForgetEnds(d2, rec, SourceRestored, rest[2..]);
          assert d2.files == Healed(d, rec).files;
        }
      case Forget(v) => ForgetEnds(d, rec, v, rest);
    }
  }

  lemma ForgetEnds(d: Disk, rec: Record, v: Resolution, answers: seq<Answer>)
    requires AllWork(answers)
    ensures
      var p := Drive(d, Owner(rec), Recovering(rec, Forget(v)), answers);
      && AllWork(p.answers)
      && (p.act.Ended? ==> p.act == Ended(Resolved(v)))
      && (p.act.Ended? ==> p.disk == d.(journal := if v.IsResolved() then d.journal - {rec.key} else d.journal))
  {
    if answers != [] {
      assert answers[0] == Works;
      if v.IsResolved() {
        DriveClears(d, Owner(rec), Recovering(rec, Forget(v)), v, answers);
        assert d.journal - {rec.key} == d.journal || rec.key in d.journal;
      } else {
        var (d', act') := StepJob(d, Owner(rec), Recovering(rec, Forget(v)), Works);
        assert Drive(d', Owner(rec), act', answers[1..]) == Progress(d', act', answers[1..]);
      }
    }
  }

  lemma DropAndForget(d: Disk, rec: Record, v: Resolution, answers: seq<Answer>)
    requires AllWork(answers)
    ensures
      var p := Drive(d, Owner(rec), Recovering(rec, DropTemp(v)), answers);
      && AllWork(p.answers)
      && (p.act.Ended? ==> p.act == Ended(Resolved(v)))
      && (p.act.Ended? ==>
            p.disk ==
              Disk(d.files - {rec.temp}, if v.IsResolved() then d.journal - {rec.key} else d.journal, d.staging))
  {
    if answers != [] {
      assert answers[0] == Works;
      ForgetEnds(Removed(d, rec.temp, Works), rec, v, answers[1..]);
    }
  }

  function PathsOf(rec: Record): set<Path> { {rec.temp, rec.final, rec.trash} }

  /** Records of different installs: no two share a path. */
  ghost predicate Disjoint(recs: seq<Record>) {
    && (forall i | 0 <= i < |recs| :: DistinctPaths(recs[i]))
    && (forall i, j | 0 <= i < j < |recs| :: PathsOf(recs[i]) !! PathsOf(recs[j]))
  }

  ghost predicate SameAt(d: Disk, e: Disk, paths: set<Path>) {
    forall p | p in paths :: (p in d.files <==> p in e.files) && (p in d.files ==> d.files[p] == e.files[p])
  }

  predicate SameRecord(d: Disk, e: Disk, k: Key) {
    (k in d.journal <==> k in e.journal) && (k in d.journal ==> d.journal[k] == e.journal[k])
  }

  /** The records whose verdict settles them. */
  function SettledKeys(d: Disk, recs: seq<Record>): set<Key> {
    set r | r in recs && Verdict(d, r).IsResolved() :: r.key
  }

  /** What recovering one record leaves for the others to see. */
  lemma OthersSeeTheSame(d: Disk, recs: seq<Record>)
    requires recs != [] && Disjoint(recs)
    ensures forall i | 0 <= i < |recs[1..]| ::
      && Verdict(Healed(d, recs[0]), recs[1..][i]) == Verdict(d, recs[1..][i])
      && SameAt(Healed(Healed(d, recs[0]), recs[1..][i]), Healed(d, recs[1..][i]), PathsOf(recs[1..][i]))
  {
    forall i | 0 <= i < |recs[1..]|
      ensures Verdict(Healed(d, recs[0]), recs[1..][i]) == Verdict(d, recs[1..][i])
      ensures SameAt(Healed(Healed(d, recs[0]), recs[1..][i]), Healed(d, recs[1..][i]), PathsOf(recs[1..][i]))
    {
      assert recs[1..][i] == recs[i + 1];
    }
  }

  lemma RestIsDisjoint(recs: seq<Record>)
    requires recs != [] && Disjoint(recs)
    ensures Disjoint(recs[1..])
    ensures forall i | 0 <= i < |recs[1..]| :: PathsOf(recs[1..][i]) !! PathsOf(recs[0])
  {
    assert forall i | 0 <= i < |recs[1..]| :: recs[1..][i] == recs[i + 1];
  }

  /** Startup recovery that nothing interrupts decides every record as if it were the only one. */
  lemma {:induction false} RecoverAllIsIndependent(d: Disk, recs: seq<Record>, answers: seq<Answer>, stop: bool)
    requires Disjoint(recs) && AllWork(answers)
    requires SweepOf(d, recs, answers, stop).status != Died
    ensures
      var s := SweepOf(d, recs, answers, stop);
      && s.status == Done && |s.out| == |recs|
      && forall i | 0 <= i < |recs| ::
           s.out[i] == (recs[i].key, Verdict(d, recs[i])) && SameAt(s.disk, Healed(d, recs[i]), PathsOf(recs[i]))
    decreases |recs|
  {
    if recs != [] {
      var rec, rest := recs[0], recs[1..];
      RecoverySucceeds(d, rec, answers);
      var p := Drive(d, Owner(rec), Recovering(rec, Look), answers);
      var e := Healed(d, rec);
      RestIsDisjoint(recs);
      OthersSeeTheSame(d, recs);
      RecoverAllIsIndependent(e, rest, p.answers, stop);
      SweepIsLocal(e, rest, p.answers, stop, PathsOf(rec));
      var s, t := SweepOf(d, recs, answers, stop), SweepOf(e, rest, p.answers, stop);
      assert s == t.After([(rec.key, Verdict(d, rec))]);
      forall i | 0 < i < |recs|
        ensures s.out[i] == (recs[i].key, Verdict(d, recs[i])) && SameAt(s.disk, Healed(d, recs[i]), PathsOf(recs[i]))
      {
        assert recs[i] == rest[i - 1];
      }
    }
  }

  lemma SettledInTwo(d: Disk, e: Disk, recs: seq<Record>)
    requires recs != [] && forall i | 0 <= i < |recs[1..]| :: Verdict(e, recs[1..][i]) == Verdict(d, recs[1..][i])
    ensures SettledKeys(d, recs) == SettledKeys(d, [recs[0]]) + SettledKeys(e, recs[1..])
  {
    var rec, rest := recs[0], recs[1..];
    assert recs == [rec] + rest;
    forall r | r in rest ensures Verdict(e, r) == Verdict(d, r) {
      var i :| 0 <= i < |rest| && rest[i] == r;
    }
    assert SettledKeys(e, rest) == SettledKeys(d, rest);
  }

  lemma FirstIsHealed(d: Disk, recs: seq<Record>, answers: seq<Answer>, stop: bool)
    requires recs != [] && DistinctPaths(recs[0]) && AllWork(answers)
    requires SweepOf(d, recs, answers, stop).status != Died
    ensures
      var rest := Drive(d, Owner(recs[0]), Recovering(recs[0], Look), answers).answers;
      && AllWork(rest)
      && SweepOf(d, recs, answers, stop).disk == SweepOf(Healed(d, recs[0]), recs[1..], rest, stop).disk
      && SweepOf(d, recs, answers, stop).status == SweepOf(Healed(d, recs[0]), recs[1..], rest, stop).status
  {
    RecoverySucceeds(d, recs[0], answers);
  }

  /** Exactly the settled records leave the journal. */
  lemma {:induction false} RecoverAllClearsTheSettled(d: Disk, recs: seq<Record>, answers: seq<Answer>, stop: bool)
    requires Disjoint(recs) && AllWork(answers)
    requires SweepOf(d, recs, answers, stop).status != Died
    ensures SweepOf(d, recs, answers, stop).disk.journal == d.journal - SettledKeys(d, recs)
    decreases |recs|
  {
    if recs != [] {
      FirstIsHealed(d, recs, answers, stop);
      var rest := Drive(d, Owner(recs[0]), Recovering(recs[0], Look), answers).answers;
      RestIsDisjoint(recs);
      OthersSeeTheSame(d, recs);
      RecoverAllClearsTheSettled(Healed(d, recs[0]), recs[1..], rest, stop);
      SettledInTwo(d, Healed(d, recs[0]), recs);
    }
  }

  /** Recovery of one record, under any failures and cut off anywhere, touches the paths and the record it names
   *  and nothing else.
   */
  lemma {:induction false} RecoveryTouchesOnly(
      d: Disk, req: Request, rec: Record, where: Recovery, answers: seq<Answer>, paths: set<Path>, k: Key)
    requires PathsOf(rec) !! paths
    ensures
      var e := Drive(d, req, Recovering(rec, where), answers).disk;
      SameAt(d, e, paths) && (k != rec.key ==> SameRecord(d, e, k))
    decreases |answers|
  {
    if answers != [] {
      var (e, act) := RecoveryStep(d, rec, where, answers[0]);
      assert rec.temp in PathsOf(rec) && rec.final in PathsOf(rec) && rec.trash in PathsOf(rec);
      if act.Recovering? { RecoveryTouchesOnly(e, req, rec, act.where, answers[1..], paths, k); }
    }
  }

  /** A sweep touches only the paths its records name. */
  lemma {:induction false} SweepIsLocal(d: Disk, recs: seq<Record>, answers: seq<Answer>, stop: bool, paths: set<Path>)
    requires forall i | 0 <= i < |recs| :: PathsOf(recs[i]) !! paths
    ensures SameAt(d, SweepOf(d, recs, answers, stop).disk, paths)
    decreases |recs|
  {
    if recs != [] {
      RecoveryTouchesOnly(d, Owner(recs[0]), recs[0], Look, answers, paths, recs[0].key);
      var p := Drive(d, Owner(recs[0]), Recovering(recs[0], Look), answers);
      SweepIsLocal(p.disk, recs[1..], p.answers, stop, paths);
    }
  }

  /** A sweep takes no record out of the journal but those it was given. */
  lemma {:induction false} SweepKeepsOtherRecords(
      d: Disk, recs: seq<Record>, answers: seq<Answer>, stop: bool, k: Key)
    requires forall i | 0 <= i < |recs| :: recs[i].key != k
    ensures SameRecord(d, SweepOf(d, recs, answers, stop).disk, k)
    decreases |recs|
  {
    if recs != [] {
      RecoveryTouchesOnly(d, Owner(recs[0]), recs[0], Look, answers, {}, k);
      var p := Drive(d, Owner(recs[0]), Recovering(recs[0], Look), answers);
      SweepKeepsOtherRecords(p.disk, recs[1..], p.answers, stop, k);
    }
  }

  /** Recovering what the server has no record of, under any failures and cut off anywhere, leaves every record
   *  of a job it does know, and the files that record names.
   */
  lemma KnownJobsAreLeftAlone(
      d: Disk, recs: seq<Record>, unknown: set<nat>, answers: seq<Answer>, stop: bool, kept: Record)
    requires Filed(d.journal) && Lists(recs, OfJobs(d.journal, unknown))
    requires kept.key in d.journal && d.journal[kept.key] == kept && kept.key.job !in unknown
    requires forall k | k in d.journal && k != kept.key :: PathsOf(d.journal[k]) !! PathsOf(kept)
    ensures
      var e := SweepOf(d, recs, answers, stop).disk;
      && kept.key in e.journal && e.journal[kept.key] == kept
      && SameAt(d, e, PathsOf(kept))
  {
    forall i | 0 <= i < |recs| ensures recs[i].key != kept.key && PathsOf(recs[i]) !! PathsOf(kept) {
      assert recs[i] in recs;
    }
    SweepIsLocal(d, recs, answers, stop, PathsOf(kept));
    SweepKeepsOtherRecords(d, recs, answers, stop, kept.key);
  }

  /** The system calls a recovery still has to make, at most. */
  function RecoveryCallsLeft(where: Recovery): nat {
    match where
    case Look => 6
    case LookAgain(_) => 5
    case DropTempThenRestore => 4
    case Restore(dropAfter) => if dropAfter then 4 else 3
    case DropTemp(_) => 3
    case Forget(_) => 2
    case SyncForget(_) => 1
  }

  lemma {:induction false} RecoveryEnds(d: Disk, req: Request, rec: Record, where: Recovery, answers: seq<Answer>)
    requires |answers| >= RecoveryCallsLeft(where)
    ensures
      var p := Drive(d, req, Recovering(rec, where), answers);
      p.act.Ended? && |p.answers| >= |answers| - RecoveryCallsLeft(where)
    decreases |answers|
  {
    var (e, act) := RecoveryStep(d, rec, where, answers[0]);
    assert Drive(d, req, Recovering(rec, where), answers) == Drive(e, req, act, answers[1..]);
    if act.Recovering? {
      RecoveryEnds(e, req, rec, act.where, answers[1..]);
    } else {
      assert Drive(e, req, act, answers[1..]) == Progress(e, act, answers[1..]);
    }
  }

  /** Six system calls a record are enough. */
  lemma {:induction false} SweepEnds(d: Disk, recs: seq<Record>, answers: seq<Answer>, stop: bool)
    requires |answers| >= 6 * |recs|
    ensures SweepOf(d, recs, answers, stop).status != Died
    decreases |recs|
  {
    if recs != [] {
      RecoveryEnds(d, Owner(recs[0]), recs[0], Look, answers);
      var p := Drive(d, Owner(recs[0]), Recovering(recs[0], Look), answers);
      SweepEnds(p.disk, recs[1..], p.answers, stop);
    }
  }

  /** Recovering what the server has no record of, with calls that work and enough of them, settles every record
   *  of such a job as if it were the only one: its files are as its verdict has them, and it stays in the
   *  journal exactly if it takes an operator.
   */
  lemma UnknownJobsAreSettled(
      d: Disk, recs: seq<Record>, unknown: set<nat>, answers: seq<Answer>, stop: bool, rec: Record)
    requires Filed(d.journal) && Lists(recs, OfJobs(d.journal, unknown)) && Disjoint(recs)
    requires AllWork(answers) && |answers| >= 6 * |recs|
    requires rec.key in d.journal && d.journal[rec.key] == rec && rec.key.job in unknown
    ensures
      var s := SweepOf(d, recs, answers, stop);
      && s.status == Done && (rec.key, Verdict(d, rec)) in s.out
      && SameAt(s.disk, Healed(d, rec), PathsOf(rec))
      && (rec.key in s.disk.journal <==> Verdict(d, rec) == NeedsOperator)
  {
    assert OfJobs(d.journal, unknown)[rec.key] in recs;
    SweepEnds(d, recs, answers, stop);
    RecoverAllIsIndependent(d, recs, answers, stop);
    RecoverAllClearsTheSettled(d, recs, answers, stop);
    var i :| 0 <= i < |recs| && recs[i] == rec;
    assert SweepOf(d, recs, answers, stop).out[i] == (rec.key, Verdict(d, rec));
  }

  /** A record recovery has given up on stays as it is, however often it is looked at again. */
  lemma {:induction false} HopelessSweepChangesNothing(d: Disk, recs: seq<Record>, answers: seq<Answer>, stop: bool)
    requires AllWork(answers) && SweepOf(d, recs, answers, stop).status != Died
    requires forall i | 0 <= i < |recs| ::
      DistinctPaths(recs[i]) && Verdict(d, recs[i]) == NeedsOperator && Healed(d, recs[i]) == d
    ensures
      var s := SweepOf(d, recs, answers, stop);
      && s.disk == d && |s.out| == |recs|
      && forall i | 0 <= i < |recs| :: s.out[i] == (recs[i].key, NeedsOperator)
    decreases |recs|
  {
    if recs != [] {
      RecoverySucceeds(d, recs[0], answers);
      var p := Drive(d, Owner(recs[0]), Recovering(recs[0], Look), answers);
      HopelessSweepChangesNothing(d, recs[1..], p.answers, stop);
    }
  }

  lemma LeftoversAreHopeless(d: Disk, recs: seq<Record>, answers: seq<Answer>, rec: Record)
    requires Lists(recs, d.journal) && Disjoint(recs) && AllWork(answers)
    requires SweepOf(d, recs, answers, true).status != Died
    requires var j := SweepOf(d, recs, answers, true).disk.journal; rec.key in j && j[rec.key] == rec
    ensures rec in recs && DistinctPaths(rec) && Verdict(d, rec) == NeedsOperator
    ensures var e := SweepOf(d, recs, answers, true).disk; Verdict(e, rec) == NeedsOperator && Healed(e, rec) == e
  {
    RecoverAllIsIndependent(d, recs, answers, true);
    RecoverAllClearsTheSettled(d, recs, answers, true);
    assert d.journal[rec.key] in recs;
    var j :| 0 <= j < |recs| && recs[j] == rec;
    GivenUpStaysGivenUp(d, SweepOf(d, recs, answers, true).disk, rec);
  }

  /** Recovering again at once changes nothing, and returns exactly what the first pass could not
   *  resolve. */
  lemma SecondRecoveryChangesNothing(
      d: Disk, recs: seq<Record>, answers: seq<Answer>, again: seq<Record>, more: seq<Answer>)
    requires Lists(recs, d.journal) && Disjoint(recs) && AllWork(answers) && AllWork(more)
    requires SweepOf(d, recs, answers, true).status != Died
    requires Lists(again, SweepOf(d, recs, answers, true).disk.journal)
    requires SweepOf(SweepOf(d, recs, answers, true).disk, again, more, true).status != Died
    ensures
      var first := SweepOf(d, recs, answers, true);
      var second := SweepOf(first.disk, again, more, true);
      && second.disk == first.disk
      && |second.out| == |again|
      && (forall i | 0 <= i < |again| :: second.out[i] == (again[i].key, NeedsOperator))
      && (forall r :: r in again <==> r in recs && Verdict(d, r) == NeedsOperator)
  {
    var first := SweepOf(d, recs, answers, true);
    RecoverAllClearsTheSettled(d, recs, answers, true);
    forall r | r in again
      ensures r in recs && DistinctPaths(r) && Verdict(d, r) == NeedsOperator
      ensures Verdict(first.disk, r) == NeedsOperator && Healed(first.disk, r) == first.disk
    {
      LeftoversAreHopeless(d, recs, answers, r);
    }
    HopelessSweepChangesNothing(first.disk, again, more, true);
    forall r | r in recs && Verdict(d, r) == NeedsOperator ensures r in again {
      assert r.key !in SettledKeys(d, recs);
      assert first.disk.journal[r.key] == r;
    }
  }

  lemma GivenUpStaysGivenUp(d: Disk, e: Disk, rec: Record)
    requires DistinctPaths(rec) && Verdict(d, rec) == NeedsOperator
    requires SameAt(e, Healed(d, rec), PathsOf(rec))
    ensures Verdict(e, rec) == NeedsOperator && Healed(e, rec) == e
  {
    assert rec.temp in PathsOf(rec) && rec.final in PathsOf(rec) && rec.trash in PathsOf(rec);
    assert Healed(e, rec).files == e.files;
  }
}
