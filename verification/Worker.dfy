/** One assignment, from the encode to the report: permission first, then the ritual, then the word of how
 *  it ended; and nothing but the work area touched by an assignment that was not permitted to install.
 */
module Worker {
  import opened Optional
  import opened Ritual
  import opened RitualRuns
  import opened CommitRitual
  import opened RitualRecovery

  datatype Assignment = Assignment(key: Key, temp: Path, final: Path)

  datatype Message =
    | Result(key: Key, passed: bool)
    | CommitReport(key: Key, verdict: Resolution)

  /** What one assignment meets on its way. `observed` is the source before the encode, `output` what the
   *  encode left at the temporary path, `permission` where the original may be moved to.
   */
  datatype Course = Course(
    sameDevice: bool,
    observed: Option<SourceGuard>,
    ran: bool,
    output: Option<File>,
    passed: bool,
    revokedMeanwhile: bool,
    permission: Option<Path>,
    tidied: bool)

  predicate Starts(c: Course) { c.sameDevice && c.observed.Some? }

  function Encoded(files: map<Path, File>, a: Assignment, c: Course): map<Path, File> {
    if c.output.Some? then files[a.temp := c.output.value] else files
  }

  /** What is said of a ritual that has ended: of one that failed nobody knows where it stands. */
  function Told(ending: Ending): Resolution {
    match ending
    case Errored => NeedsOperator
    case Resolved(r) => r
  }

  /** The verdict a ritual's outcome is reported as; a process that died reports nothing. */
  function Reported(key: Key, out: Outcome): seq<Message> {
    match out
    case Crashed => []
    case Finished(ending) => [CommitReport(key, Told(ending))]
  }

  /** Whatever is reported of a ritual is so: a replacement that is reported in place is in place, an original that
   *  is reported kept is at home, and what nobody knows is left to an operator.
   */
  lemma ReportsAreTruthful(d: Disk, job: Job, answers: seq<Answer>)
    requires Accounted(d, job, Installing(CheckDevice)) && job.Sound()
    ensures
      var p := Drive(d, job.req, Installing(CheckDevice), answers);
      var sent := Reported(job.req.key, OutcomeOf(p));
      && (sent == [] <==> !p.act.Ended?)
      && (sent != [] ==> sent == [CommitReport(job.req.key, sent[0].verdict)])
      && (sent != [] && sent[0].verdict == Landed ==>
            BytesAt(p.disk, job.req.final) == Some(job.replacement)
            && BytesAt(p.disk, job.req.trash) == Some(job.original))
      && (sent != [] && sent[0].verdict in {SourceIntact, SourceRestored} ==>
            BytesAt(p.disk, job.req.final) == Some(job.original))
      && (p.act == Ended(Errored) ==> sent[0].verdict == NeedsOperator)
  {
    CommitNeverLosesTheOriginal(d, job, answers);
  }

  /** The jobs an agent says it is running, those it must not install, and whether it takes no more. */
  datatype Flags = Flags(running: set<nat>, revoked: set<nat>, draining: bool) {
    /** The encode is left alone; what is stopped is the install. */
    function Revoking(job: nat): Flags { this.(revoked := revoked + {job}, running := running - {job}) }

    function Draining(): Flags { this.(draining := true) }

    function Holding(job: nat): Flags { this.(running := running + {job}) }

    function LettingGo(job: nat): Flags { this.(running := running - {job}) }

    function Forgiving(job: nat): Flags { this.(revoked := revoked - {job}) }
  }

  class Worker {
    const ritual: CommitRitual
    var running: set<nat>
    var revoked: set<nat>
    var draining: bool

    constructor (r: CommitRitual)
      ensures ritual == r && running == {} && revoked == {} && !draining
    {
      ritual, running, revoked, draining := r, {}, {}, false;
    }

    ghost function Now(): Flags
      reads this
    {
      Flags(running, revoked, draining)
    }

    method OnRevoke(job: nat)
      modifies this
      ensures Now() == old(Now()).Revoking(job)
    {
      revoked, running := revoked + {job}, running - {job};
    }

    method OnDrain() returns (still: set<nat>)
      modifies this`draining
      ensures Now() == old(Now()).Draining() && still == running
    {
      draining := true;
      still := running;
    }

    /** Sweep the output of an assignment that will not be installed. */
    method Tidy(temp: Path, tidied: bool)
      modifies ritual`files
      ensures ritual.files == if tidied then old(ritual.files) - {temp} else old(ritual.files)
    {
      if tidied { ritual.files := ritual.files - {temp}; }
    }

    /** Run the ritual, and say how it ended. */
    method InstallAndReport(req: Request) returns (reports: seq<Message>, ended: Outcome)
      modifies ritual
      ensures
        var p := Drive(old(ritual.Now()), req, Installing(CheckDevice), old(ritual.answers));
        ritual.Now() == p.disk && ended == OutcomeOf(p) && reports == Reported(req.key, ended)
    {
      ended := ritual.Commit(req);
      match ended {
        case Crashed => reports := [];
        case Finished(Errored) => reports := [CommitReport(req.key, NeedsOperator)];
        case Finished(Resolved(r)) => reports := [CommitReport(req.key, r)];
      }
    }

    /** Encode, ask, install, report; each step only if the one before it allows it. */
    method Execute(a: Assignment, c: Course) returns (sent: seq<Message>, ghost out: Option<Outcome>)
      modifies this, ritual
      ensures Now() == if Starts(c) && c.revokedMeanwhile then old(Now()).Revoking(a.key.job) else old(Now())
      ensures out.Some? <==>
        && c.sameDevice && c.observed.Some? && c.ran && c.passed
        && a.key.job !in old(revoked) && !c.revokedMeanwhile && c.permission.Some?
      ensures out.None? ==> sent == [Result(a.key, Starts(c) && c.ran && c.passed)]
      ensures out.None? ==> ritual.journal == old(ritual.journal) && ritual.staging == old(ritual.staging)
      ensures out.None? ==> ritual.files - {a.temp} == old(ritual.files) - {a.temp}
      ensures out.Some? ==>
        var req := Request(a.key, a.temp, a.final, c.permission.value, c.observed.value);
        var p := Drive(Disk(Encoded(old(ritual.files), a, c), old(ritual.journal), old(ritual.staging)),
                       req, Installing(CheckDevice), old(ritual.answers));
        && ritual.Now() == p.disk && out == Some(OutcomeOf(p))
        && sent == [Result(a.key, true)] + Reported(a.key, OutcomeOf(p))
    {
      out := None;
      if !c.sameDevice { return [Result(a.key, false)], None; }
      if c.observed.None? { return [Result(a.key, false)], None; }
      if c.output.Some? { ritual.files := ritual.files[a.temp := c.output.value]; }
      if c.revokedMeanwhile { OnRevoke(a.key.job); }
      if !c.ran {
        Tidy(a.temp, c.tidied);
        return [Result(a.key, false)], None;
      }
      sent := [Result(a.key, c.passed)];
      if !c.passed {
        Tidy(a.temp, c.tidied);
        return;
      }
      if a.key.job in revoked {
        Tidy(a.temp, c.tidied);
        return;
      }
      if c.permission.None? {
        Tidy(a.temp, c.tidied);
        return;
      }
      var reports, ended := InstallAndReport(Request(a.key, a.temp, a.final, c.permission.value, c.observed.value));
      out := Some(ended);
      sent := sent + reports;
    }

    /** Hold the job while it runs, and let go of it however that ends. */
    method OnAssignment(a: Assignment, c: Course) returns (sent: seq<Message>, ghost out: Option<Outcome>)
      modifies this, ritual
      ensures out.Some? <==>
        && !old(draining) && c.sameDevice && c.observed.Some? && c.ran && c.passed
        && a.key.job !in old(revoked) && !c.revokedMeanwhile && c.permission.Some?
      ensures old(draining) ==> Now() == old(Now())
      ensures !old(draining) ==>
        var f := if Starts(c) && c.revokedMeanwhile then old(Now()).Holding(a.key.job).Revoking(a.key.job)
                 else old(Now()).Holding(a.key.job);
        Now() == f.LettingGo(a.key.job).Forgiving(a.key.job)
      ensures out.None? ==>
        ritual.journal == old(ritual.journal) && ritual.files - {a.temp} == old(ritual.files) - {a.temp}
      ensures sent != [] && sent[0] == Result(a.key, !old(draining) && Starts(c) && c.ran && c.passed)
      ensures out.None? ==> |sent| == 1
    {
      if draining { return [Result(a.key, false)], None; }
      running := running + {a.key.job};
      sent, out := Execute(a, c);
      running := running - {a.key.job};
      revoked := revoked - {a.key.job};
    }
  }
}
