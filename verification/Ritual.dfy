/** The commit ritual as a machine that advances one system call at a time.
 *
 *  A `Disk` is what survives a crash: the media files, the journal records, and the half-written
 *  files the journal stages its records in.  `StepJob` performs exactly one system call of one
 *  install or of one recovery; the environment decides whether that call works or fails.  A crash
 *  is simply never taking the next step.
 */
module Ritual {
  import opened Optional

  type Path = string

  /** What a source file looked like: size, modification time, and an inode where there is one. */
  datatype SourceGuard = SourceGuard(size: nat, mtime: int, inode: Option<nat>) {
    predicate Matches(other: SourceGuard) {
      && size == other.size
      && mtime == other.mtime
      && (inode.Some? && other.inode.Some? ==> inode == other.inode)
    }
  }

  /** A file: a token standing for its bytes, and what `stat` says about it. */
  datatype File = File(bytes: nat, stat: SourceGuard)

  datatype Phase = Granted | Retired | Installed

  /** A journal record is found again by its job and attempt. */
  datatype Key = Key(job: nat, attempt: int)

  datatype Record = Record(key: Key, temp: Path, final: Path, trash: Path, phase: Phase)

  /** The staging file of a journal write: torn until it is synced. */
  datatype Staging = Torn | Whole(rec: Record)

  datatype Disk = Disk(files: map<Path, File>, journal: map<Key, Record>, staging: map<Key, Staging>)

  datatype Request = Request(key: Key, temp: Path, final: Path, trash: Path, guard: SourceGuard)

  datatype Resolution = Landed | SourceIntact | SourceRestored | NeedsOperator {
    predicate IsResolved() { !NeedsOperator? }
  }

  /** How an install or a recovery ended: with a resolution, or because the filesystem failed. */
  datatype Ending = Resolved(resolution: Resolution) | Errored

  /** What the environment answers to one system call. */
  datatype Answer = Works | Fails

  /** The system calls inside one journal write. */
  datatype Write = Open | Sync | Publish | SyncDir

  /** Where an install stands: the system call it makes next. */
  datatype Install =
    | CheckDevice
    | CheckStaged
    | Observe
    | Log(phase: Phase, write: Write)
    | Harden
    | Retire
    | Put
    | PutBack
    | ClearLog(ending: Resolution)
    | SyncLog(ending: Resolution)

  /** Where a recovery stands: it looks for the destination, then, knowing what it saw, for the trash. */
  datatype Recovery =
    | Look
    | LookAgain(finalSeen: bool)
    | DropTemp(verdict: Resolution)
    | DropTempThenRestore
    | Restore(dropAfter: bool)
    | Forget(verdict: Resolution)
    | SyncForget(verdict: Resolution)

  /** `Idle` has not begun; `Stopped` was cut off by a crash. */
  datatype Activity =
    | Idle
    | Stopped
    | Installing(at: Install)
    | Recovering(rec: Record, where: Recovery)
    | Ended(ending: Ending)

  function RecordOf(req: Request, phase: Phase): Record {
    Record(req.key, req.temp, req.final, req.trash, phase)
  }

  /** `rename(2)`: whatever was at the target is gone. */
  function Rename(files: map<Path, File>, from: Path, to: Path): map<Path, File>
    requires from in files
  {
    (files - {from})[to := files[from]]
  }

  /** The outcome of asking for a rename: it needs a source, and the environment's consent. */
  predicate CanRename(d: Disk, from: Path, a: Answer) {
    a == Works && from in d.files
  }

  function Moved(d: Disk, from: Path, to: Path): Disk
    requires from in d.files
  {
    d.(files := Rename(d.files, from, to))
  }

  function Removed(d: Disk, p: Path, a: Answer): Disk {
    if a == Works then d.(files := d.files - {p}) else d
  }

  /** One system call of a journal write. */
  function WriteStep(d: Disk, rec: Record, w: Write): Disk {
    match w
    case Open => d.(staging := d.staging[rec.key := Torn])
    case Sync => d.(staging := d.staging[rec.key := Whole(rec)])
    case Publish => d.(journal := d.journal[rec.key := rec], staging := d.staging - {rec.key})
    case SyncDir => d
  }

  function AfterWrite(phase: Phase, w: Write): Install {
    match w
    case Open => Log(phase, Sync)
    case Sync => Log(phase, Publish)
    case Publish => Log(phase, SyncDir)
    case SyncDir =>
      match phase
      case Granted => Harden
      case Retired => Put
      case Installed => ClearLog(Landed)
  }

  /** One system call of an install. */
  function InstallStep(d: Disk, req: Request, at: Install, a: Answer): (Disk, Activity) {
    match at
    case CheckDevice => (d, if a == Works then Installing(CheckStaged) else Ended(Errored))
    case CheckStaged =>
      (d, if a == Works && req.temp in d.files then Installing(Observe) else Ended(Resolved(SourceIntact)))
    case Observe =>
      (d, if a == Works && req.final in d.files && req.guard.Matches(d.files[req.final].stat)
          then Installing(Log(Granted, Open)) else Ended(Resolved(SourceIntact)))
    case Log(phase, w) =>
      if a == Works then (WriteStep(d, RecordOf(req, phase), w), Installing(AfterWrite(phase, w)))
      else (d, Ended(Errored))
    case Harden => (d, if a == Works then Installing(Retire) else Ended(Errored))
    case Retire =>
      if CanRename(d, req.final, a) then (Moved(d, req.final, req.trash), Installing(Log(Retired, Open)))
      else (d, Ended(Errored))
    case Put =>
      if CanRename(d, req.temp, a) then (Moved(d, req.temp, req.final), Installing(Log(Installed, Open)))
      else (d, Installing(PutBack))
    case PutBack =>
      if CanRename(d, req.trash, a)
      then (Moved(d, req.trash, req.final), Installing(ClearLog(SourceRestored)))
      else (d, Installing(ClearLog(NeedsOperator)))
    case ClearLog(ending) =>
      if a == Fails then (d, Ended(Errored))
      else if req.key in d.journal then (Cleared(d, req.key), Installing(SyncLog(ending)))
      else (d, Ended(Resolved(ending)))
    case SyncLog(ending) => (d, if a == Works then Ended(Resolved(ending)) else Ended(Errored))
  }

  /** The first half of dropping a record; the other half makes the directory durable. */
  function Cleared(d: Disk, key: Key): Disk { d.(journal := d.journal - {key}) }

  /** What recovery does next with a record, by what it saw of the two paths it names. */
  function Decide(rec: Record, finalSeen: bool, trashSeen: bool): Recovery {
    match rec.phase
    case Granted => DropTemp(if finalSeen then SourceIntact else NeedsOperator)
    case Retired =>
      if finalSeen then DropTemp(Landed)
      else if trashSeen then Restore(true)
      else Forget(NeedsOperator)
    case Installed =>
      if finalSeen then DropTemp(Landed)
      else if trashSeen then DropTempThenRestore
      else DropTemp(NeedsOperator)
  }

  /** One system call of a recovery.  A look that fails sees nothing.  An unresolved record stays in the
   *  journal.
   */
  function RecoveryStep(d: Disk, rec: Record, where: Recovery, a: Answer): (Disk, Activity) {
    match where
    case Look => (d, Recovering(rec, LookAgain(a == Works && rec.final in d.files)))
    case LookAgain(finalSeen) => (d, Recovering(rec, Decide(rec, finalSeen, a == Works && rec.trash in d.files)))
    case DropTemp(verdict) => (Removed(d, rec.temp, a), Recovering(rec, Forget(verdict)))
    case DropTempThenRestore => (Removed(d, rec.temp, a), Recovering(rec, Restore(false)))
    case Restore(dropAfter) =>
      if CanRename(d, rec.trash, a)
      then (Moved(d, rec.trash, rec.final),
            Recovering(rec, if dropAfter then DropTemp(SourceRestored) else Forget(SourceRestored)))
      else (d, Ended(Errored))
    case Forget(verdict) =>
      if !verdict.IsResolved() then (d, Ended(Resolved(verdict)))
      else if a == Fails then (d, Ended(Errored))
      else if rec.key in d.journal then (Cleared(d, rec.key), Recovering(rec, SyncForget(verdict)))
      else (d, Ended(Resolved(verdict)))
    case SyncForget(verdict) => (d, if a == Works then Ended(Resolved(verdict)) else Ended(Errored))
  }

  /** One system call of whatever a job is doing. */
  function StepJob(d: Disk, req: Request, act: Activity, a: Answer): (Disk, Activity) {
    match act
    case Idle => (d, act)
    case Stopped => (d, act)
    case Ended(_) => (d, act)
    case Installing(at) => InstallStep(d, req, at, a)
    case Recovering(rec, where) => RecoveryStep(d, rec, where, a)
  }

  datatype Progress = Progress(disk: Disk, act: Activity, answers: seq<Answer>)

  /** Carry on until the job has ended or the process dies, which it does when it runs out of
   *  answers. */
  function Drive(d: Disk, req: Request, act: Activity, answers: seq<Answer>): Progress
    decreases |answers|
  {
    if act.Ended? || answers == [] then Progress(d, act, answers)
    else
      var (d', act') := StepJob(d, req, act, answers[0]);
      Drive(d', req, act', answers[1..])
  }
}
