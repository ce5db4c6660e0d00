/** Every run of many installs on one agent: interleaved system calls, crashes anywhere, recoveries
 *  that are themselves cut short, and failures of any call.  The original is never lost.
 */
module RitualRuns {
  import opened Optional
  import opened Ritual

  /** One install: what it was asked for, the bytes it replaces and the bytes it puts there. */
  datatype Job = Job(req: Request, original: nat, replacement: nat) {
    function Paths(): set<Path> { {req.temp, req.final, req.trash} }

    predicate Sound() {
      && original != replacement
      && req.temp != req.final && req.final != req.trash && req.trash != req.temp
    }
  }

  type Plan = map<Key, Job>

  /** Each job uses three paths of its own; the replacement differs from what it replaces. */
  ghost predicate WellFormed(plan: Plan) {
    && (forall k | k in plan ::
          plan[k].req.key == k && plan[k].Sound())
    && (forall k, l | k in plan && l in plan && k != l :: plan[k].Paths() !! plan[l].Paths())
  }

  datatype State = State(disk: Disk, acts: map<Key, Activity>)

  /** `Begin` starts an install, `Call` makes the next system call of a job, `Resume` starts a
   *  recovery of a record that is in the journal, `Crash` ends the process, and `Vanish` is
   *  somebody else deleting an installed replacement. */
  datatype Event = Begin(key: Key) | Call(key: Key, answer: Answer) | Resume(key: Key) | Crash | Vanish(key: Key)

  function BytesAt(d: Disk, p: Path): Option<nat> {
    if p in d.files then Some(d.files[p].bytes) else None
  }

  /** Where the original is, judged by bytes. */
  datatype Place = Home | Away | Swapped | Lost

  function PlaceOf(d: Disk, job: Job): Place {
    var final, trash := BytesAt(d, job.req.final), BytesAt(d, job.req.trash);
    if final == Some(job.original) && trash != Some(job.original) then Home
    else if final == None && trash == Some(job.original) then Away
    else if final == Some(job.replacement) && trash == Some(job.original) then Swapped
    else Lost
  }

  function PhaseOf(d: Disk, k: Key): Option<Phase> {
    if k in d.journal then Some(d.journal[k].phase) else None
  }

  predicate CanResume(act: Activity) { act.Stopped? || act.Ended? }

  function Next(plan: Plan, s: State, e: Event): State
    requires s.acts.Keys == plan.Keys
    ensures Next(plan, s, e).acts.Keys == plan.Keys
  {
    match e
    case Begin(k) =>
      if k in plan && s.acts[k].Idle? then s.(acts := s.acts[k := Installing(CheckDevice)]) else s
    case Call(k, a) =>
      if k in plan then
        var (d, act) := StepJob(s.disk, plan[k].req, s.acts[k], a);
        State(d, s.acts[k := act])
      else s
    case Resume(k) =>
      if k in plan && CanResume(s.acts[k]) && k in s.disk.journal
      then s.(acts := s.acts[k := Recovering(s.disk.journal[k], Look)]) else s
    case Crash => s.(acts := map k | k in s.acts :: if s.acts[k].Idle? then Idle else Stopped)
    case Vanish(k) =>
      if k in plan && CanResume(s.acts[k]) && PlaceOf(s.disk, plan[k]) == Swapped
      then s.(disk := s.disk.(files := s.disk.files - {plan[k].req.final})) else s
  }

  function Run(plan: Plan, s: State, events: seq<Event>): State
    requires s.acts.Keys == plan.Keys
    ensures Run(plan, s, events).acts.Keys == plan.Keys
  {
    if events == [] then s
    else Next(plan, Run(plan, s, events[..|events| - 1]), events[|events| - 1])
  }

  ghost predicate Initial(plan: Plan, s: State) {
    && s.acts.Keys == plan.Keys
    && forall k | k in plan ::
         && s.acts[k] == Idle
         && k !in s.disk.journal
         && PlaceOf(s.disk, plan[k]) == Home
         && BytesAt(s.disk, plan[k].req.temp) in {None, Some(plan[k].replacement)}
  }

  // -------------------------------------------------------------------------------- invariant

  /** A record whose original has been put back but which has not been cleared yet. */
  predicate Stale(d: Disk, job: Job) {
    PlaceOf(d, job) == Home && PhaseOf(d, job.req.key) in {Some(Retired), Some(Installed)}
  }

  /** What a verdict claims about the disk. */
  predicate Truthful(d: Disk, job: Job, verdict: Resolution) {
    PlaceOf(d, job) == match verdict
      case Landed => Swapped
      case SourceIntact => Home
      case SourceRestored => Home
      case NeedsOperator => Away
  }

  predicate InstallFits(place: Place, phase: Option<Phase>, at: Install) {
    match at
    case CheckDevice => place == Home && phase == None
    case CheckStaged => place == Home && phase == None
    case Observe => place == Home && phase == None
    case Log(Granted, w) => place == Home && phase == if w == SyncDir then Some(Granted) else None
    case Harden => place == Home && phase == Some(Granted)
    case Retire => place == Home && phase == Some(Granted)
    case Log(Retired, w) => place == Away && phase == Some(if w == SyncDir then Retired else Granted)
    case Put => place == Away && phase == Some(Retired)
    case PutBack => place == Away && phase == Some(Retired)
    case Log(Installed, w) => place == Swapped && phase == Some(if w == SyncDir then Installed else Retired)
    case ClearLog(Landed) => place == Swapped && phase == Some(Installed)
    case ClearLog(SourceRestored) => place == Home && phase == Some(Retired)
    case ClearLog(NeedsOperator) => place == Away && phase == Some(Retired)
    case ClearLog(SourceIntact) => false
    case SyncLog(verdict) =>
      phase == None && match verdict
                       case Landed => place == Swapped
                       case SourceRestored => place == Home
                       case NeedsOperator => place == Away
                       case SourceIntact => false
  }

  predicate VerdictFits(place: Place, phase: Phase, verdict: Resolution) {
    match verdict
    case SourceIntact => place == Home && phase == Granted
    case SourceRestored => place == Home && phase != Granted
    case Landed => place in {Home, Swapped} && phase != Granted
    case NeedsOperator => place == Swapped ==> phase != Granted
  }

  predicate RecoveryFits(place: Place, phase: Phase, where: Recovery) {
    match where
    case Look => place == Swapped ==> phase != Granted
    case LookAgain(finalSeen) => (place == Swapped ==> phase != Granted) && (finalSeen ==> place != Away)
    case DropTemp(verdict) => VerdictFits(place, phase, verdict)
    case DropTempThenRestore => place in {Away, Swapped} && phase == Installed
    case Restore(dropAfter) => place in {Away, Swapped} && phase != Granted
    case Forget(verdict) => VerdictFits(place, phase, verdict)
    case SyncForget(verdict) => VerdictFits(place, phase, verdict) && verdict.IsResolved()
  }

  /** What holds of one job: its original is somewhere, and the journal says how to find it. */
  predicate Accounted(d: Disk, job: Job, act: Activity) {
    var place, phase := PlaceOf(d, job), PhaseOf(d, job.req.key);
    && place != Lost
    && BytesAt(d, job.req.temp) in {None, Some(job.replacement)}
    && (phase.Some? ==> d.journal[job.req.key] == RecordOf(job.req, phase.value))
    && (Stale(d, job) ==> job.req.trash !in d.files)
    && match act
       case Idle => place == Home && phase == None
       case Stopped => place == Swapped ==> phase != Some(Granted)
       case Ended(_) => place == Swapped ==> phase != Some(Granted)
       case Installing(at) => InstallFits(place, phase, at)
       case Recovering(rec, where) =>
         && phase == (if where.SyncForget? then None else Some(rec.phase))
         && rec == RecordOf(job.req, rec.phase)
         && RecoveryFits(place, rec.phase, where)
  }

  ghost predicate Safe(plan: Plan, s: State) {
    && s.acts.Keys == plan.Keys
    && forall k | k in plan :: Accounted(s.disk, plan[k], s.acts[k])
  }

  /** Two disks a job cannot tell apart. */
  ghost predicate SameFor(d: Disk, e: Disk, job: Job) {
    && (forall p | p in job.Paths() :: BytesAt(d, p) == BytesAt(e, p))
    && (job.req.key in d.journal <==> job.req.key in e.journal)
    && (job.req.key in d.journal ==> d.journal[job.req.key] == e.journal[job.req.key])
  }

  lemma SameDiskSameAccount(d: Disk, e: Disk, job: Job, act: Activity)
    requires Accounted(d, job, act) && SameFor(d, e, job)
    ensures Accounted(e, job, act)
  {
    assert {job.req.temp, job.req.final, job.req.trash} == job.Paths();
    assert BytesAt(d, job.req.temp) == BytesAt(e, job.req.temp);
    assert BytesAt(d, job.req.final) == BytesAt(e, job.req.final);
    assert BytesAt(d, job.req.trash) == BytesAt(e, job.req.trash);
  }

  /** The four things a system call can do to a job's files, and where each leaves the original. */
  lemma MoveMovesTheOriginal(d: Disk, job: Job)
    requires job.Sound()
    ensures
      var r := job.req;
      && (PlaceOf(d, job) == Home ==> r.final in d.files && PlaceOf(Moved(d, r.final, r.trash), job) == Away
                                      && BytesAt(Moved(d, r.final, r.trash), r.temp) == BytesAt(d, r.temp))
      && (PlaceOf(d, job) in {Away, Swapped} ==>
            && r.trash in d.files && PlaceOf(Moved(d, r.trash, r.final), job) == Home
            && r.trash !in Moved(d, r.trash, r.final).files
            && BytesAt(Moved(d, r.trash, r.final), r.temp) == BytesAt(d, r.temp))
      && (PlaceOf(d, job) == Away && BytesAt(d, r.temp) == Some(job.replacement) ==>
            PlaceOf(Moved(d, r.temp, r.final), job) == Swapped && BytesAt(Moved(d, r.temp, r.final), r.temp) == None)
      && (forall a :: PlaceOf(Removed(d, r.temp, a), job) == PlaceOf(d, job)
                      && BytesAt(Removed(d, r.temp, a), r.temp) in {None, BytesAt(d, r.temp)})
  {
  }

  lemma InstallKeepsAccounted(d: Disk, job: Job, at: Install, a: Answer)
    requires Accounted(d, job, Installing(at)) && job.Sound()
    ensures var (d', act') := InstallStep(d, job.req, at, a); Accounted(d', job, act')
  {
    if at.Log? { LoggingKeepsAccounted(d, job, at, a); } else { MoveMovesTheOriginal(d, job); }
  }

  lemma LoggingKeepsAccounted(d: Disk, job: Job, at: Install, a: Answer)
    requires at.Log? && Accounted(d, job, Installing(at)) && job.Sound()
    ensures var (d', act') := InstallStep(d, job.req, at, a); Accounted(d', job, act')
  {
    assert WriteStep(d, RecordOf(job.req, at.phase), at.write).files == d.files;
  }

  lemma RecoveryKeepsAccounted(d: Disk, job: Job, rec: Record, where: Recovery, a: Answer)
    requires Accounted(d, job, Recovering(rec, where)) && job.Sound()
    ensures var (d', act') := RecoveryStep(d, rec, where, a); Accounted(d', job, act')
  {
    MoveMovesTheOriginal(d, job);
  }

  /** A system call of a job keeps that job accounted for. */
  lemma StepKeepsAccounted(d: Disk, job: Job, act: Activity, a: Answer)
    requires Accounted(d, job, act) && job.Sound()
    ensures var (d', act') := StepJob(d, job.req, act, a); Accounted(d', job, act')
  {
    match act
    case Idle =>
    case Stopped =>
    case Ended(_) =>
    case Installing(at) => InstallKeepsAccounted(d, job, at, a);
    case Recovering(rec, where) => RecoveryKeepsAccounted(d, job, rec, where, a);
  }

  /** A system call of a job touches nothing outside its own paths and its own record. */
  lemma StepIsLocal(d: Disk, job: Job, act: Activity, a: Answer, other: Job)
    requires act.Recovering? ==> act.rec == RecordOf(job.req, act.rec.phase)
    requires job.Paths() !! other.Paths() && job.req.key != other.req.key
    ensures SameFor(d, StepJob(d, job.req, act, a).0, other)
  {
    match act
    case Installing(at) => InstallIsLocal(d, job, at, a, other);
    case Recovering(rec, where) => RecoveryIsLocal(d, job, rec, where, a, other);
    case _ =>
  }

  lemma InstallIsLocal(d: Disk, job: Job, at: Install, a: Answer, other: Job)
    requires job.Paths() !! other.Paths() && job.req.key != other.req.key
    ensures SameFor(d, InstallStep(d, job.req, at, a).0, other)
  {
    assert job.req.temp in job.Paths() && job.req.final in job.Paths() && job.req.trash in job.Paths();
  }

  lemma RecoveryIsLocal(d: Disk, job: Job, rec: Record, where: Recovery, a: Answer, other: Job)
    requires rec == RecordOf(job.req, rec.phase)
    requires job.Paths() !! other.Paths() && job.req.key != other.req.key
    ensures SameFor(d, RecoveryStep(d, rec, where, a).0, other)
  {
    assert job.req.temp in job.Paths() && job.req.final in job.Paths() && job.req.trash in job.Paths();
  }

  lemma CallKeepsSafe(plan: Plan, s: State, k: Key, a: Answer)
    requires WellFormed(plan) && Safe(plan, s) && k in plan
    ensures Safe(plan, Next(plan, s, Call(k, a)))
  {
    StepKeepsAccounted(s.disk, plan[k], s.acts[k], a);
    var d := StepJob(s.disk, plan[k].req, s.acts[k], a).0;
    forall l | l in plan && l != k ensures Accounted(d, plan[l], s.acts[l]) {
      StepIsLocal(s.disk, plan[k], s.acts[k], a, plan[l]);
      SameDiskSameAccount(s.disk, d, plan[l], s.acts[l]);
    }
  }

  lemma VanishKeepsSafe(plan: Plan, s: State, k: Key)
    requires WellFormed(plan) && Safe(plan, s) && k in plan
    ensures Safe(plan, Next(plan, s, Vanish(k)))
  {
    var d := Next(plan, s, Vanish(k)).disk;
    VanishKeepsItsOwn(plan, s, k);
    forall l | l in plan && l != k ensures Accounted(d, plan[l], s.acts[l]) {
      SameDiskSameAccount(s.disk, d, plan[l], s.acts[l]);
    }
  }

  lemma VanishKeepsItsOwn(plan: Plan, s: State, k: Key)
    requires s.acts.Keys == plan.Keys && k in plan && plan[k].Sound() && Accounted(s.disk, plan[k], s.acts[k])
    ensures Accounted(Next(plan, s, Vanish(k)).disk, plan[k], s.acts[k])
  {
  }

  lemma ResumeKeepsSafe(plan: Plan, s: State, k: Key)
    requires Safe(plan, s) && k in plan && CanResume(s.acts[k]) && k in s.disk.journal && plan[k].req.key == k
    ensures Accounted(s.disk, plan[k], Recovering(s.disk.journal[k], Look))
  {
  }

  lemma CrashKeepsSafe(plan: Plan, s: State)
    requires Safe(plan, s)
    ensures Safe(plan, Next(plan, s, Crash))
  {
    forall k | k in plan ensures !s.acts[k].Idle? ==> Accounted(s.disk, plan[k], Stopped) {
      assert Accounted(s.disk, plan[k], s.acts[k]);
    }
  }

  lemma BeginKeepsSafe(plan: Plan, s: State, k: Key)
    requires Safe(plan, s)
    ensures Safe(plan, Next(plan, s, Begin(k)))
  {
    if k in plan && s.acts[k].Idle? { assert Accounted(s.disk, plan[k], Installing(CheckDevice)); }
  }

  lemma NextKeepsSafe(plan: Plan, s: State, e: Event)
    requires WellFormed(plan) && Safe(plan, s)
    ensures Safe(plan, Next(plan, s, e))
  {
    match e
    case Begin(k) => BeginKeepsSafe(plan, s, k);
    case Call(k, a) => if k in plan { CallKeepsSafe(plan, s, k, a); }
    case Resume(k) =>
      if k in plan && CanResume(s.acts[k]) && k in s.disk.journal { ResumeKeepsSafe(plan, s, k); }
    case Crash => CrashKeepsSafe(plan, s);
    case Vanish(k) => if k in plan { VanishKeepsSafe(plan, s, k); }
  }

  lemma {:induction false} RunKeepsSafe(plan: Plan, s: State, events: seq<Event>)
    requires WellFormed(plan) && Safe(plan, s)
    ensures Safe(plan, Run(plan, s, events))
  {
    if events != [] {
      var before := events[..|events| - 1];
      RunKeepsSafe(plan, s, before);
      NextKeepsSafe(plan, Run(plan, s, before), events[|events| - 1]);
    }
  }

  lemma RunFromTheStartIsSafe(plan: Plan, s: State, events: seq<Event>)
    requires WellFormed(plan) && Initial(plan, s)
    ensures Safe(plan, Run(plan, s, events))
  {
    assert Safe(plan, s);
    RunKeepsSafe(plan, s, events);
  }

  // ----------------------------------------------------------------------------- main results

  /** Never neither: whatever happens, however often the process dies, the original's bytes are at
   *  exactly one of the destination and the trash, and if they are not at the destination then
   *  either nothing or the whole replacement is. */
  lemma OriginalIsNeverLost(plan: Plan, s: State, events: seq<Event>, k: Key)
    requires WellFormed(plan) && Initial(plan, s) && k in plan
    ensures
      var d, job := Run(plan, s, events).disk, plan[k];
      var final, trash := BytesAt(d, job.req.final), BytesAt(d, job.req.trash);
      && (final == Some(job.original)) != (trash == Some(job.original))
      && final in {None, Some(job.original), Some(job.replacement)}
  {
    RunKeepsSafe(plan, s, events);
  }

  /** An install that resolves tells the truth, and leaves no record. */
  lemma InstallResolvesTruthfully(d: Disk, job: Job, at: Install, a: Answer, verdict: Resolution)
    requires Accounted(d, job, Installing(at)) && job.Sound()
    requires InstallStep(d, job.req, at, a).1 == Ended(Resolved(verdict))
    ensures
      var e := InstallStep(d, job.req, at, a).0;
      Truthful(e, job, verdict) && job.req.key !in e.journal
  {
  }

  lemma OthersLeaveAJobAlone(plan: Plan, s: State, e: Event, k: Key)
    requires WellFormed(plan) && Safe(plan, s) && k in plan
    requires !(e.Call? && e.key == k) && !(e.Vanish? && e.key == k)
    ensures SameFor(s.disk, Next(plan, s, e).disk, plan[k])
  {
    if e.Call? && e.key in plan {
      assert Accounted(s.disk, plan[e.key], s.acts[e.key]);
      StepIsLocal(s.disk, plan[e.key], s.acts[e.key], e.answer, plan[k]);
    } else if e.Vanish? && e.key in plan {
      assert plan[e.key].req.final in plan[e.key].Paths();
    }
  }

  lemma SameDiskSamePlace(d: Disk, e: Disk, job: Job)
    requires SameFor(d, e, job)
    ensures PlaceOf(d, job) == PlaceOf(e, job) && PhaseOf(d, job.req.key) == PhaseOf(e, job.req.key)
  {
    assert job.req.final in job.Paths() && job.req.trash in job.Paths();
    assert BytesAt(d, job.req.final) == BytesAt(e, job.req.final);
    assert BytesAt(d, job.req.trash) == BytesAt(e, job.req.trash);
  }
}
