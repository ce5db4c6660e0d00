/** The commit ritual and its recovery as the code performs them: methods that change files and
 *  journal in place, under an environment that may fail or cut off any system call.  Every method
 *  is proved to do exactly what the step machine of module `Ritual` does.
 */
module CommitRitual {
  import opened Optional
  import opened Ritual

  /** How one system call, or a group of them, came back.  After `Died` nothing more happens. */
  datatype Reply = Done | Failed | Died

  datatype Outcome = Finished(ending: Ending) | Crashed

  function OutcomeOf(p: Progress): Outcome {
    if p.act.Ended? then Finished(p.act.ending) else Crashed
  }

  /** The request a record was made for, as far as recovery is concerned. */
  function Owner(rec: Record): Request {
    Request(rec.key, rec.temp, rec.final, rec.trash, SourceGuard(0, 0, None))
  }

  predicate Before(a: Key, b: Key) {
    a.job < b.job || (a.job == b.job && a.attempt < b.attempt)
  }

  /** The records of a journal, each once, in order. */
  ghost predicate Lists(recs: seq<Record>, journal: map<Key, Record>) {
    && Sorted(recs)
    && (forall r | r in recs :: r.key in journal && journal[r.key] == r)
    && (forall k | k in journal :: journal[k] in recs)
  }

  /** Every record is filed under its own job and attempt. */
  ghost predicate Filed(journal: map<Key, Record>) {
    forall k | k in journal :: journal[k].key == k
  }

  /** The records of a journal of the jobs in a set. */
  function OfJobs(journal: map<Key, Record>, jobs: set<nat>): map<Key, Record> {
    map k | k in journal && k.job in jobs :: journal[k]
  }

  /** What is listed comes by job, and within a job by attempt. */
  lemma {:induction false} ListedInOrder(recs: seq<Record>, i: nat, k: nat)
    requires Sorted(recs) && i < k < |recs|
    ensures recs[i].key.job < recs[k].key.job ||
      (recs[i].key.job == recs[k].key.job && recs[i].key.attempt < recs[k].key.attempt)
  {
    if i > 0 {
      ListedInOrder(recs[1..], i - 1, k - 1);
    } else if k > 1 {
      ListedInOrder(recs[1..], 0, k - 1);
    }
  }

  function Insert(recs: seq<Record>, rec: Record): seq<Record> {
    if recs == [] || Before(rec.key, recs[0].key) then [rec] + recs
    else [recs[0]] + Insert(recs[1..], rec)
  }

  predicate Sorted(recs: seq<Record>) {
    |recs| > 1 ==> Before(recs[0].key, recs[1].key) && Sorted(recs[1..])
  }

  lemma {:induction false} HeadIsBeforeAll(recs: seq<Record>, i: nat)
    requires Sorted(recs) && 0 < i < |recs|
    ensures Before(recs[0].key, recs[i].key)
  {
    if i > 1 { HeadIsBeforeAll(recs[1..], i - 1); }
  }

  lemma {:induction false} InsertKeeps(recs: seq<Record>, rec: Record)
    requires Sorted(recs) && forall r | r in recs :: r.key != rec.key
    ensures Sorted(Insert(recs, rec))
    ensures forall r :: r in Insert(recs, rec) <==> r == rec || r in recs
  {
    if recs == [] || Before(rec.key, recs[0].key) {
      assert ([rec] + recs)[1..] == recs;
    } else {
      assert recs == [recs[0]] + recs[1..];
      assert recs[0] in recs;
      InsertKeeps(recs[1..], rec);
      assert Insert(recs, rec)[1..] == Insert(recs[1..], rec);
    }
  }

  lemma InsertLists(recs: seq<Record>, journal: map<Key, Record>, rec: Record)
    requires Lists(recs, journal) && rec.key !in journal
    ensures Lists(Insert(recs, rec), journal[rec.key := rec])
  {
    InsertKeeps(recs, rec);
  }

  function Named(recs: seq<Record>, jobs: set<nat>): seq<Record> {
    if recs == [] then []
    else (if recs[0].key.job in jobs then [recs[0]] else []) + Named(recs[1..], jobs)
  }

  lemma {:induction false} NamedKeeps(recs: seq<Record>, jobs: set<nat>)
    requires Sorted(recs)
    ensures Sorted(Named(recs, jobs))
    ensures forall r :: r in Named(recs, jobs) <==> r in recs && r.key.job in jobs
  {
    if recs != [] {
      NamedKeeps(recs[1..], jobs);
      assert recs == [recs[0]] + recs[1..];
      var rest := Named(recs[1..], jobs);
      if recs[0].key.job in jobs {
        assert Named(recs, jobs)[1..] == rest;
        if rest != [] {
          var i :| 0 <= i < |recs[1..]| && recs[1..][i] == rest[0];
          HeadIsBeforeAll(recs, i + 1);
        }
      } else {
        assert Named(recs, jobs) == rest;
      }
    }
  }

  /** What the filter keeps of a journal's listing lists the journal's records of those jobs. */
  lemma NamedLists(recs: seq<Record>, journal: map<Key, Record>, jobs: set<nat>)
    requires Lists(recs, journal) && Filed(journal)
    ensures Lists(Named(recs, jobs), OfJobs(journal, jobs))
  {
    NamedKeeps(recs, jobs);
  }

  /** What recovering a list of records did. */
  datatype Sweep = Sweep(disk: Disk, out: seq<(Key, Resolution)>, answers: seq<Answer>, status: Reply) {
    function After(first: seq<(Key, Resolution)>): Sweep { this.(out := first + out) }
  }

  function SweepOf(d: Disk, recs: seq<Record>, answers: seq<Answer>, stopOnError: bool): Sweep
    decreases |recs|
  {
    if recs == [] then Sweep(d, [], answers, Done)
    else
      var p := Drive(d, Owner(recs[0]), Recovering(recs[0], Look), answers);
      match p.act
      case Ended(Resolved(v)) => SweepOf(p.disk, recs[1..], p.answers, stopOnError).After([(recs[0].key, v)])
      case Ended(Errored) =>
        if stopOnError then Sweep(p.disk, [], p.answers, Failed)
        else SweepOf(p.disk, recs[1..], p.answers, stopOnError)
      case _ => Sweep(p.disk, [], p.answers, Died)
  }

  /** How the sweep of the records from one on follows from how that record ends. */
  lemma SweepNext(d: Disk, recs: seq<Record>, i: nat, answers: seq<Answer>, stop: bool, out: seq<(Key, Resolution)>)
    requires i < |recs|
    ensures
      var p := Drive(d, Owner(recs[i]), Recovering(recs[i], Look), answers);
      SweepOf(d, recs[i..], answers, stop).After(out) ==
        match OutcomeOf(p)
        case Crashed => Sweep(p.disk, out, p.answers, Died)
        case Finished(Resolved(v)) => SweepOf(p.disk, recs[i + 1..], p.answers, stop).After(out + [(recs[i].key, v)])
        case Finished(Errored) =>
          if stop then Sweep(p.disk, out, p.answers, Failed)
          else SweepOf(p.disk, recs[i + 1..], p.answers, stop).After(out)
  {
    var rest := recs[i..];
    assert rest[0] == recs[i] && rest[1..] == recs[i + 1..];
    var p := Drive(d, Owner(recs[i]), Recovering(recs[i], Look), answers);
    if p.act.Ended? && p.act.ending.Resolved? {
      var s := SweepOf(p.disk, recs[i + 1..], p.answers, stop);
      var one := (recs[i].key, p.act.ending.resolution);
      assert out + ([one] + s.out) == out + [one] + s.out;
    } else {
      assert out + [] == out;
    }
  }

  /** What dropping a record does: the removal may fail, and so may the sync after it. */
  function ClearOf(journal: map<Key, Record>, key: Key, answers: seq<Answer>): (map<Key, Record>, seq<Answer>, Reply) {
    if answers == [] then (journal, [], Died)
    else if answers[0] == Fails then (journal, answers[1..], Failed)
    else if key !in journal then (journal, answers[1..], Done)
    else if |answers| == 1 then (journal - {key}, [], Died)
    else (journal - {key}, answers[2..], if answers[1] == Works then Done else Failed)
  }

  /** A whole drive from the point where a record is dropped. */
  lemma DriveClears(d: Disk, req: Request, act: Activity, verdict: Resolution, answers: seq<Answer>)
    requires act == Installing(ClearLog(verdict)) ||
      (act.Recovering? && act.rec.key == req.key && act.where == Forget(verdict) && verdict.IsResolved())
    ensures
      var p := Drive(d, req, act, answers);
      var (journal, rest, r) := ClearOf(d.journal, req.key, answers);
      && p.disk == d.(journal := journal) && p.answers == rest
      && (r == Done ==> p.act == Ended(Resolved(verdict)))
      && (r == Failed ==> p.act == Ended(Errored))
      && (r == Died ==> !p.act.Ended?)
  {
    if answers != [] {
      var (e, next) := StepJob(d, req, act, answers[0]);
      assert Drive(d, req, act, answers) == Drive(e, req, next, answers[1..]);
      if next.Ended? {
        assert Drive(e, req, next, answers[1..]) == Progress(e, next, answers[1..]);
      } else {
        DriveSyncs(e, req, next, verdict, answers[1..]);
        assert |answers| > 1 ==> answers[1..][1..] == answers[2..];
      }
    }
  }

  lemma DriveSyncs(d: Disk, req: Request, act: Activity, verdict: Resolution, answers: seq<Answer>)
    requires act == Installing(SyncLog(verdict)) || (act.Recovering? && act.where == SyncForget(verdict))
    ensures Drive(d, req, act, answers) ==
      if answers == [] then Progress(d, act, [])
      else Progress(d, Ended(if answers[0] == Works then Resolved(verdict) else Errored), answers[1..])
  {
    if answers != [] {
      var next := StepJob(d, req, act, answers[0]).1;
      assert Drive(d, req, act, answers) == Drive(d, req, next, answers[1..]);
    }
  }

  /** The destination is not what was observed before the encode: it is gone, or its size, its modification
   *  time or, where both are known, its inode is another.
   */
  predicate Changed(files: map<Path, File>, req: Request) {
    req.final in files ==>
      var was, now := req.guard, files[req.final].stat;
      || now.size != was.size || now.mtime != was.mtime
      || (now.inode.Some? && was.inode.Some? && now.inode.value != was.inode.value)
  }

  /** The first three system calls of an install touch nothing, and it goes on exactly if they work, the output
   *  is there, and the destination is what was observed.
   */
  lemma InstallBeginsExactlyWhen(d: Disk, req: Request, answers: seq<Answer>)
    requires |answers| == 3
    ensures
      var p := Drive(d, req, Installing(CheckDevice), answers);
      && p.disk == d
      && (p.act == Installing(Log(Granted, Open)) <==>
            (forall i | 0 <= i < 3 :: answers[i] == Works) && req.temp in d.files && !Changed(d.files, req))
      && (p.act != Installing(Log(Granted, Open)) ==>
            p.act == Ended(if answers[0] == Works then Resolved(SourceIntact) else Errored))
  {
    assert answers[1..][1..] == answers[2..] && answers[2..][1..] == [];
    var rest := answers[2..];
    assert Drive(d, req, Installing(Observe), rest) ==
      Progress(d, InstallStep(d, req, Observe, answers[2]).1, []);
    assert Drive(d, req, Installing(CheckStaged), answers[1..]) ==
      if answers[1] == Works && req.temp in d.files then Drive(d, req, Installing(Observe), rest)
      else Progress(d, Ended(Resolved(SourceIntact)), rest);
  }

  /** A source that has changed, or an output that is gone, is never installed over: whatever fails and wherever
   *  it is cut off, the install leaves the whole disk as it was, and says so if it says anything.
   */
  lemma ChangedSourceIsLeftAlone(d: Disk, req: Request, answers: seq<Answer>)
    requires Changed(d.files, req) || req.temp !in d.files
    ensures
      var p := Drive(d, req, Installing(CheckDevice), answers);
      && p.disk == d
      && (p.act.Ended? ==> p.act.ending in {Resolved(SourceIntact), Errored})
      && (|answers| >= 3 ==> p.act.Ended?)
  {
    if answers != [] {
      var (_, first) := InstallStep(d, req, CheckDevice, answers[0]);
      assert Drive(d, req, Installing(CheckDevice), answers) == Drive(d, req, first, answers[1..]);
      if first.Installing? { ChangedFromStaged(d, req, answers[1..]); }
    }
  }

  lemma ChangedFromStaged(d: Disk, req: Request, answers: seq<Answer>)
    requires Changed(d.files, req) || req.temp !in d.files
    ensures
      var p := Drive(d, req, Installing(CheckStaged), answers);
      && p.disk == d && (p.act.Ended? ==> p.act.ending == Resolved(SourceIntact))
      && (|answers| >= 2 ==> p.act.Ended?)
  {
    if answers != [] {
      var (_, next) := InstallStep(d, req, CheckStaged, answers[0]);
      assert Drive(d, req, Installing(CheckStaged), answers) == Drive(d, req, next, answers[1..]);
      if next.Installing? && |answers| > 1 {
        var (_, last) := InstallStep(d, req, Observe, answers[1]);
        assert last == Ended(Resolved(SourceIntact));
        assert Drive(d, req, next, answers[1..]) == Drive(d, req, last, answers[1..][1..]);
      }
    }
  }

  class CommitRitual {
    var files: map<Path, File>
    var journal: map<Key, Record>
    var staging: map<Key, Staging>
    var answers: seq<Answer>

    ghost function Now(): Disk
      reads this
    {
      Disk(files, journal, staging)
    }

    /** What the machine makes of the present state if the job is at `act`. */
    ghost function From(req: Request, act: Activity): Progress
      reads this
    {
      Drive(Now(), req, act, answers)
    }

    /** How a drive ended one of whose calls failed, or at one of whose calls the process died. */
    ghost predicate CutShort(p: Progress, r: Reply)
      reads this
    {
      && (r.Failed? ==> p == Progress(Now(), Ended(Errored), answers))
      && (r.Died? ==> p.disk == Now() && !p.act.Ended? && p.answers == answers)
    }

    method Ask() returns (r: Reply)
      modifies this`answers
      ensures r == if old(answers) == [] then Died else if old(answers)[0] == Works then Done else Failed
      ensures answers == if old(answers) == [] then [] else old(answers)[1..]
    {
      if answers == [] { return Died; }
      r := if answers[0] == Works then Done else Failed;
      answers := answers[1..];
    }

    /** `fs::rename`: fails without a source, and then changes nothing. */
    method TryRename(from: Path, to: Path) returns (r: Reply)
      modifies this`files, this`answers
      ensures answers == if old(answers) == [] then [] else old(answers)[1..]
      ensures r.Died? <==> old(answers) == []
      ensures r.Done? <==> old(answers) != [] && old(answers)[0] == Works && from in old(files)
      ensures r.Done? ==> files == Rename(old(files), from, to)
      ensures !r.Done? ==> files == old(files)
    {
      r := Ask();
      if r.Done? {
        if from !in files { return Failed; }
        var f := files[from];
        files := files - {from};
        files := files[to := f];
      }
    }

    /** `fs::remove_file` with its result ignored. */
    method Discard(p: Path) returns (r: Reply)
      modifies this`files, this`answers
      ensures answers == if old(answers) == [] then [] else old(answers)[1..]
      ensures r.Died? <==> old(answers) == []
      ensures files == if old(answers) != [] && old(answers)[0] == Works then old(files) - {p} else old(files)
    {
      r := Ask();
      if r.Done? { files := files - {p}; }
    }

    /** Write a record to a staging file and make its bytes durable. */
    method Stage(req: Request, phase: Phase) returns (r: Reply)
      modifies this`staging, this`answers
      ensures r.Done? ==> old(From(req, Installing(Log(phase, Open)))) == From(req, Installing(Log(phase, Publish)))
      ensures CutShort(old(From(req, Installing(Log(phase, Open)))), r)
    {
      ghost var p := From(req, Installing(Log(phase, Open)));
      r := Ask();
      if !r.Done? { assert r.Failed? ==> p == From(req, Ended(Errored)); return; }
      staging := staging[req.key := Torn];
      assert p == From(req, Installing(Log(phase, Sync)));
      r := Ask();
      if !r.Done? { assert r.Failed? ==> p == From(req, Ended(Errored)); return; }
      staging := staging[req.key := Whole(RecordOf(req, phase))];
    }

    /** Stage a record, and rename it into the journal. */
    method WriteRecord(req: Request, phase: Phase) returns (r: Reply)
      modifies this`journal, this`staging, this`answers
      ensures r.Done? ==>
        old(From(req, Installing(Log(phase, Open)))) == From(req, Installing(AfterWrite(phase, SyncDir)))
      ensures CutShort(old(From(req, Installing(Log(phase, Open)))), r)
    {
      ghost var p := From(req, Installing(Log(phase, Open)));
      r := Stage(req, phase);
      if !r.Done? { return; }
      r := Ask();
      if !r.Done? { assert r.Failed? ==> p == From(req, Ended(Errored)); return; }
      journal := journal[req.key := RecordOf(req, phase)];
      staging := staging - {req.key};
      assert p == From(req, Installing(Log(phase, SyncDir)));
      r := Ask();
      assert r.Failed? ==> p == From(req, Ended(Errored));
    }

    /** Remove a record and make that durable; an absent one is not an error. */
    method Clear(key: Key) returns (r: Reply)
      modifies this`journal, this`answers
      ensures (journal, answers, r) == ClearOf(old(journal), key, old(answers))
    {
      r := Ask();
      if r.Done? && key in journal {
        journal := journal - {key};
        r := Ask();
      }
    }

    /** Everything up to and including the first journal record. */
    method Prepare(req: Request) returns (r: Reply, intact: bool)
      modifies this`journal, this`staging, this`answers
      ensures r.Done? && !intact ==> old(From(req, Installing(CheckDevice))) == From(req, Installing(Harden))
      ensures r.Done? && intact ==>
        old(From(req, Installing(CheckDevice))) == Progress(Now(), Ended(Resolved(SourceIntact)), answers)
      ensures CutShort(old(From(req, Installing(CheckDevice))), r)
    {
      intact := false;
      ghost var p := From(req, Installing(CheckDevice));
      r := Ask();
      if !r.Done? { assert r.Failed? ==> p == From(req, Ended(Errored)); return; }
      assert p == From(req, Installing(CheckStaged));
      r := Ask();
      if r.Died? { return; }
      if r.Failed? || req.temp !in files {
        assert p == From(req, Ended(Resolved(SourceIntact)));
        return Done, true;
      }
      assert p == From(req, Installing(Observe));
      r := Ask();
      if r.Died? { return; }
      if r.Failed? || req.final !in files || !req.guard.Matches(files[req.final].stat) {
        assert p == From(req, Ended(Resolved(SourceIntact)));
        return Done, true;
      }
      assert p == From(req, Installing(Log(Granted, Open)));
      r := WriteRecord(req, Granted);
    }

    /** Make the output real, move the original aside, and say so. */
    method RetireOriginal(req: Request) returns (r: Reply)
      modifies this
      ensures r.Done? ==> old(From(req, Installing(Harden))) == From(req, Installing(Put))
      ensures CutShort(old(From(req, Installing(Harden))), r)
    {
      ghost var p := From(req, Installing(Harden));
      r := Ask();
      if !r.Done? { assert r.Failed? ==> p == From(req, Ended(Errored)); return; }
      assert p == From(req, Installing(Retire));
      r := TryRename(req.final, req.trash);
      if !r.Done? { assert r.Failed? ==> p == From(req, Ended(Errored)); return; }
      assert p == From(req, Installing(Log(Retired, Open)));
      r := WriteRecord(req, Retired);
    }

    /** Put the output at the destination or, failing that, the original back. */
    method PutInPlace(req: Request) returns (r: Reply, resolution: Resolution)
      modifies this
      ensures r.Done? ==> old(From(req, Installing(Put))) == From(req, Installing(ClearLog(resolution)))
      ensures CutShort(old(From(req, Installing(Put))), r)
    {
      resolution := Landed;
      ghost var p := From(req, Installing(Put));
      r := TryRename(req.temp, req.final);
      if r.Died? { return; }
      if r.Failed? {
        assert p == From(req, Installing(PutBack));
        r := TryRename(req.trash, req.final);
        if r.Died? { return; }
        return Done, if r.Done? then SourceRestored else NeedsOperator;
      }
      assert p == From(req, Installing(Log(Installed, Open)));
      r := WriteRecord(req, Installed);
    }

    /** Install a staged output, or say why it was not installed. */
    method Commit(req: Request) returns (out: Outcome)
      modifies this
      ensures old(From(req, Installing(CheckDevice))).disk == Now()
      ensures old(From(req, Installing(CheckDevice))).answers == answers
      ensures out == OutcomeOf(old(From(req, Installing(CheckDevice))))
      ensures old(Changed(files, req)) || req.temp !in old(files) ==>
        Now() == old(Now()) && (out.Finished? ==> out.ending in {Resolved(SourceIntact), Errored})
    {
      if Changed(files, req) || req.temp !in files { ChangedSourceIsLeftAlone(Now(), req, answers); }
      var r, intact := Prepare(req);
      if r.Died? { return Crashed; }
      if r.Failed? { return Finished(Errored); }
      if intact { return Finished(Resolved(SourceIntact)); }
      r := RetireOriginal(req);
      if r.Died? { return Crashed; }
      if r.Failed? { return Finished(Errored); }
      var resolution;
      r, resolution := PutInPlace(req);
      if r.Died? { return Crashed; }
      if r.Failed? { return Finished(Errored); }
      DriveClears(Now(), req, Installing(ClearLog(resolution)), resolution, answers);
      r := Clear(req.key);
      if r.Died? { return Crashed; }
      if r.Failed? { return Finished(Errored); }
      return Finished(Resolved(resolution));
    }

    /** Which of a record's two places exist; one that cannot be looked at does not. */
    method See(rec: Record) returns (r: Reply, finalExists: bool, trashExists: bool)
      modifies this`answers
      ensures !r.Failed?
      ensures r.Done? ==>
        old(From(Owner(rec), Recovering(rec, Look)))
          == From(Owner(rec), Recovering(rec, Decide(rec, finalExists, trashExists)))
      ensures CutShort(old(From(Owner(rec), Recovering(rec, Look))), r)
    {
      ghost var p := From(Owner(rec), Recovering(rec, Look));
      finalExists, trashExists := false, false;
      r := Ask();
      if r.Died? { return; }
      finalExists := r.Done? && rec.final in files;
      assert p == From(Owner(rec), Recovering(rec, LookAgain(finalExists)));
      r := Ask();
      if r.Died? { return; }
      trashExists := r.Done? && rec.trash in files;
      return Done, finalExists, trashExists;
    }

    /** Resolve one interrupted install; the caller clears its record. */
    method RecoverOne(rec: Record) returns (r: Reply, verdict: Resolution)
      modifies this`files, this`answers
      ensures r.Done? ==>
        old(From(Owner(rec), Recovering(rec, Look))) == From(Owner(rec), Recovering(rec, Forget(verdict)))
      ensures CutShort(old(From(Owner(rec), Recovering(rec, Look))), r)
    {
      verdict := NeedsOperator;
      ghost var req := Owner(rec);
      ghost var p := From(req, Recovering(rec, Look));
      var finalExists, trashExists;
      r, finalExists, trashExists := See(rec);
      if r.Died? { return; }
      match rec.phase {
        case Granted =>
          verdict := if finalExists then SourceIntact else NeedsOperator;
          assert p == From(req, Recovering(rec, DropTemp(verdict)));
          var dropped := Discard(rec.temp);
          if dropped.Died? { return Died, verdict; }
        case Retired =>
          if finalExists {
            verdict := Landed;
            assert p == From(req, Recovering(rec, DropTemp(verdict)));
            var dropped := Discard(rec.temp);
            if dropped.Died? { return Died, verdict; }
          } else if trashExists {
            assert p == From(req, Recovering(rec, Restore(true)));
            r := TryRename(rec.trash, rec.final);
            if !r.Done? { assert r.Failed? ==> p == From(req, Ended(Errored)); return; }
            verdict := SourceRestored;
            assert p == From(req, Recovering(rec, DropTemp(verdict)));
            var dropped := Discard(rec.temp);
            if dropped.Died? { return Died, verdict; }
          }
        case Installed =>
          var dropped := Discard(rec.temp);
          if dropped.Died? { return Died, verdict; }
          if finalExists {
            verdict := Landed;
          } else if trashExists {
            assert p == From(req, Recovering(rec, Restore(false)));
            r := TryRename(rec.trash, rec.final);
            if !r.Done? { assert r.Failed? ==> p == From(req, Ended(Errored)); return; }
            verdict := SourceRestored;
          }
      }
      assert p == From(req, Recovering(rec, Forget(verdict)));
    }

    /** Resolve one record and, if that settled it, drop it from the journal. */
    method Settle(rec: Record) returns (out: Outcome)
      modifies this`files, this`journal, this`answers
      ensures old(From(Owner(rec), Recovering(rec, Look))).disk == Now()
      ensures old(From(Owner(rec), Recovering(rec, Look))).answers == answers
      ensures out == OutcomeOf(old(From(Owner(rec), Recovering(rec, Look))))
    {
      ghost var req := Owner(rec);
      ghost var p := From(req, Recovering(rec, Look));
      var r, verdict := RecoverOne(rec);
      if r.Died? { return Crashed; }
      if r.Failed? { return Finished(Errored); }
      assert p == From(req, Recovering(rec, Forget(verdict)));
      if !verdict.IsResolved() {
        r := Ask();
        if r.Died? { return Crashed; }
        assert p == From(req, Ended(Resolved(verdict)));
      } else {
        DriveClears(Now(), req, Recovering(rec, Forget(verdict)), verdict, answers);
        r := Clear(rec.key);
        if r.Died? { return Crashed; }
        if r.Failed? { return Finished(Errored); }
      }
      return Finished(Resolved(verdict));
    }

    /** Every record in the journal, ordered by job and then attempt. */
    method Outstanding() returns (recs: seq<Record>)
      requires Filed(journal)
      ensures Lists(recs, journal)
    {
      recs := [];
      ghost var seen: map<Key, Record> := map[];
      var left := journal.Keys;
      while left != {}
        invariant left <= journal.Keys && seen.Keys == journal.Keys - left
        invariant forall k | k in seen :: seen[k] == journal[k]
        invariant Lists(recs, seen)
      {
        var k :| k in left;
        InsertLists(recs, seen, journal[k]);
        recs := Insert(recs, journal[k]);
        seen := seen[k := journal[k]];
        left := left - {k};
      }
      assert seen == journal;
    }

    /** Settle each of some records in turn.  Startup recovery stops at the first failure; the
     *  recovery of disowned records goes on to the next. */
    method SettleEach(recs: seq<Record>, stopOnError: bool) returns (out: seq<(Key, Resolution)>, status: Reply)
      modifies this`files, this`journal, this`answers
      ensures Sweep(Now(), out, answers, status) == SweepOf(old(Now()), recs, old(answers), stopOnError)
    {
      ghost var all := SweepOf(Now(), recs, answers, stopOnError);
      out := [];
      var i := 0;
      while i < |recs|
        invariant 0 <= i <= |recs|
        invariant all == SweepOf(Now(), recs[i..], answers, stopOnError).After(out)
      {
        SweepNext(Now(), recs, i, answers, stopOnError, out);
        var one := Settle(recs[i]);
        match one {
          case Crashed => return out, Died;
          case Finished(Resolved(v)) => out := out + [(recs[i].key, v)];
          case Finished(Errored) => if stopOnError { return out, Failed; }
        }
        i := i + 1;
      }
      status := Done;
    }

    /** Resolve every install that was in flight when the process died. */
    method RecoverAll() returns (out: seq<(Key, Resolution)>, status: Reply, ghost recs: seq<Record>)
      requires Filed(journal)
      modifies this`files, this`journal, this`answers
      ensures Lists(recs, old(journal))
      ensures Sweep(Now(), out, answers, status) == SweepOf(old(Now()), recs, old(answers), true)
    {
      var all := Outstanding();
      recs := all;
      out, status := SettleEach(all, true);
    }

    /** Resolve the installs the server has no record of: those records of the journal whose job is unknown to
     *  it, all of them, in the journal's order, and no others.
     */
    method ResolveUnknown(unknown: set<nat>) returns (status: Reply, ghost recs: seq<Record>)
      requires Filed(journal)
      modifies this`files, this`journal, this`answers
      ensures Lists(recs, OfJobs(old(journal), unknown))
      ensures exists out ::
        Sweep(Now(), out, answers, status) == SweepOf(old(Now()), recs, old(answers), false)
    {
      var all := Outstanding();
      NamedLists(all, journal, unknown);
      var named := Named(all, unknown);
      recs := named;
      var out, s := SettleEach(named, false);
      status := s;
    }
  }
}
