/** Deciding, in batches, every file of a library whose decision predates the policy. */
module Evaluator {
  import opened Optional
  import opened Jobs
  import Policy

  const EVAL_BATCH: nat := 1000

  /** A file of the library that a decision may be made for.  Its index is its place in the order of ids. */
  datatype FileRow = FileRow(facts: Option<Policy.Facts>, decidedUnder: Option<string>) {
    predicate Pending(version: string) { decidedUnder != Some(version) }

    predicate Blank(version: string) { Pending(version) && facts.None? }

    predicate Ready(version: string) { Pending(version) && facts.Some? }
  }

  datatype FileJob = FileJob(file: nat, open: bool)

  datatype Totals = Totals(
    evaluated: nat, jobsCreated: nat, noWork: nat, quarantined: nat, alreadyBusy: nat, unprobed: nat)
  {
    function Of(kind: Kind): nat {
      match kind
      case QuarantinedNow => quarantined
      case NothingOwed => noWork
      case BusyAlready => alreadyBusy
    }

    /** Every evaluated file is accounted for once. */
    predicate Balanced() { evaluated == noWork + quarantined + alreadyBusy + jobsCreated }
  }

  function Zero(): Totals { Totals(0, 0, 0, 0, 0, 0) }

  /** What a decision comes to when it makes no job. */
  datatype Kind = QuarantinedNow | NothingOwed | BusyAlready

  /** How many files below a bound are pending with nothing to decide from. */
  function BlanksBelow(files: seq<FileRow>, version: string, n: nat): nat
    requires n <= |files|
  {
    if n == 0 then 0
    else BlanksBelow(files, version, n - 1) + if files[n - 1].Blank(version) then 1 else 0
  }

  function ReadyBelow(files: seq<FileRow>, version: string, n: nat): (c: nat)
    requires n <= |files|
    ensures c <= n
  {
    if n == 0 then 0
    else ReadyBelow(files, version, n - 1) + if files[n - 1].Ready(version) then 1 else 0
  }

  /** The files below a bound that are not decided under a version, with facts or without. */
  ghost function Undecided(files: seq<FileRow>, version: string, known: bool, n: nat): set<nat>
    requires n <= |files|
  {
    set k: nat | k < n && files[k].decidedUnder != Some(version) && files[k].facts.Some? == known
  }

  lemma OneMoreUndecided(files: seq<FileRow>, version: string, known: bool, n: nat)
    requires 0 < n <= |files|
    ensures |Undecided(files, version, known, n)| == |Undecided(files, version, known, n - 1)| +
      if files[n - 1].decidedUnder != Some(version) && files[n - 1].facts.Some? == known then 1 else 0
  {
    var most := Undecided(files, version, known, n - 1);
    if files[n - 1].decidedUnder != Some(version) && files[n - 1].facts.Some? == known {
      assert Undecided(files, version, known, n) == most + {n - 1};
    } else {
      assert Undecided(files, version, known, n) == most;
    }
  }

  /** Blank is what has no facts, and ready what has, of the files not decided under the version. */
  lemma {:induction false} CountedBelow(files: seq<FileRow>, version: string, n: nat)
    requires n <= |files|
    ensures BlanksBelow(files, version, n) == |Undecided(files, version, false, n)|
    ensures ReadyBelow(files, version, n) == |Undecided(files, version, true, n)|
  {
    if n > 0 {
      CountedBelow(files, version, n - 1);
      OneMoreUndecided(files, version, false, n);
      OneMoreUndecided(files, version, true, n);
    } else {
      assert Undecided(files, version, false, 0) == {} && Undecided(files, version, true, 0) == {};
    }
  }

  /** The query: the first pending files below a bound, in order, and no more than a batch of them. */
  function Batch(files: seq<FileRow>, version: string, n: nat): (ks: seq<nat>)
    requires n <= |files|
    ensures forall k | k in ks :: k < n
  {
    if n == 0 then []
    else
      var most := Batch(files, version, n - 1);
      if files[n - 1].Pending(version) && |most| < EVAL_BATCH then most + [n - 1] else most
  }

  function Min(a: nat, b: nat): nat { if a < b then a else b }

  lemma {:induction false} BatchIs(files: seq<FileRow>, version: string, n: nat)
    requires n <= |files|
    ensures
      var batch := Batch(files, version, n);
      && |batch| == Min(BlanksBelow(files, version, n) + ReadyBelow(files, version, n), EVAL_BATCH)
      && (forall k | 0 <= k < n :: k in batch <==> InBatch(files, version, k))
      && (forall i, m | 0 <= i < m < |batch| :: batch[i] != batch[m])
  {
    if n > 0 {
      BatchIs(files, version, n - 1);
      var most := Batch(files, version, n - 1);
      forall i | 0 <= i < |most| ensures most[i] != n - 1 {
        assert most[i] in most;
      }
    }
  }

  /** Pending, with fewer than a batch of pending files before it. */
  predicate InBatch(files: seq<FileRow>, version: string, k: nat)
    requires k < |files|
  {
    && files[k].decidedUnder != Some(version)
    && BlanksBelow(files, version, k) + ReadyBelow(files, version, k) < EVAL_BATCH
  }

  /** Indices of pending files, each once. */
  ghost predicate Workable(files: seq<FileRow>, version: string, batch: seq<nat>) {
    && (forall m | 0 <= m < |batch| :: batch[m] < |files| && files[batch[m]].Pending(version))
    && (forall m, n | 0 <= m < n < |batch| :: batch[m] != batch[n])
  }

  lemma BatchIsPending(files: seq<FileRow>, version: string)
    ensures Workable(files, version, Batch(files, version, |files|))
  {
    BatchIs(files, version, |files|);
    var batch := Batch(files, version, |files|);
    forall m | 0 <= m < |batch| ensures batch[m] < |files| && files[batch[m]].Pending(version) {
      assert batch[m] in batch;
      assert InBatch(files, version, batch[m]);
    }
  }

  /** What an evaluation may do to a row: decide it, if there is something to decide from. */
  predicate RowEvolved(was: FileRow, now: FileRow, version: string) {
    now == was || (was.Ready(version) && now == was.(decidedUnder := Some(version)))
  }

  ghost predicate Evolved(was: seq<FileRow>, now: seq<FileRow>, version: string) {
    |now| == |was| && forall k | 0 <= k < |was| :: RowEvolved(was[k], now[k], version)
  }

  lemma {:induction false} BlanksStay(was: seq<FileRow>, now: seq<FileRow>, version: string, n: nat)
    requires Evolved(was, now, version) && n <= |was|
    ensures BlanksBelow(now, version, n) == BlanksBelow(was, version, n)
    ensures ReadyBelow(now, version, n) <= ReadyBelow(was, version, n)
  {
    if n > 0 {
      BlanksStay(was, now, version, n - 1);
      assert RowEvolved(was[n - 1], now[n - 1], version);
    }
  }

  lemma {:induction false} DecidingOneCounts(was: seq<FileRow>, version: string, k: nat, n: nat)
    requires k < |was| && n <= |was| && was[k].Ready(version)
    ensures
      var now := was[k := was[k].(decidedUnder := Some(version))];
      ReadyBelow(now, version, n) == ReadyBelow(was, version, n) - if k < n then 1 else 0
  {
    if n > 0 {
      DecidingOneCounts(was, version, k, n - 1);
    }
  }

  ghost predicate OneOpenJobPerFile(jobs: map<JobId, FileJob>) {
    forall i, k | i in jobs && k in jobs && jobs[i].open && jobs[k].open && jobs[i].file == jobs[k].file :: i == k
  }

  /** When a batch holds only blanks, a batch of blanks comes before every file that could be decided. */
  lemma {:induction false} StuckBehindBlanks(files: seq<FileRow>, version: string, n: nat)
    requires n <= |files| && forall k | 0 <= k < |files| && InBatch(files, version, k) :: files[k].Blank(version)
    ensures ReadyBelow(files, version, n) == 0 || BlanksBelow(files, version, n) >= EVAL_BATCH
    ensures n < |files| && files[n].Ready(version) ==> BlanksBelow(files, version, n) >= EVAL_BATCH
  {
    if n > 0 {
      StuckBehindBlanks(files, version, n - 1);
    }
    assert n < |files| && files[n].Ready(version) ==> !InBatch(files, version, n);
  }

  /** Only files that fewer than a batch of blanks come before have been decided. */
  ghost predicate Reached(was: seq<FileRow>, now: seq<FileRow>, version: string)
    requires Evolved(was, now, version)
  {
    forall k | 0 <= k < |was| && now[k] != was[k] :: BlanksBelow(was, version, k) < EVAL_BATCH
  }

  /** Of the files that could be decided, exactly those that fewer than a batch of blanks come before were. */
  ghost predicate Exact(was: seq<FileRow>, now: seq<FileRow>, version: string)
    requires Evolved(was, now, version)
  {
    forall k | 0 <= k < |was| && was[k].facts.Some? && was[k].decidedUnder != Some(version) ::
      now[k].decidedUnder == Some(version) <==> BlanksBelow(was, version, k) < EVAL_BATCH
  }

  lemma {:induction false} CountsGrow(files: seq<FileRow>, version: string, k: nat, n: nat)
    requires k <= n <= |files|
    ensures BlanksBelow(files, version, k) <= BlanksBelow(files, version, n)
    ensures ReadyBelow(files, version, k) <= ReadyBelow(files, version, n)
  {
    if k < n {
      CountsGrow(files, version, k, n - 1);
    }
  }

  lemma NothingPending(was: seq<FileRow>, now: seq<FileRow>, version: string)
    requires Evolved(was, now, version) && Batch(now, version, |now|) == []
    ensures Exact(was, now, version)
  {
    BatchIs(now, version, |now|);
    forall k | 0 <= k < |was| && was[k].Ready(version)
      ensures now[k].decidedUnder == Some(version) && BlanksBelow(was, version, k) < EVAL_BATCH
    {
      CountsGrow(now, version, k, |now|);
      BlanksStay(was, now, version, k);
      assert !InBatch(now, version, k);
    }
  }

  lemma StuckIsExact(was: seq<FileRow>, now: seq<FileRow>, version: string)
    requires Evolved(was, now, version) && Reached(was, now, version)
    requires forall k | 0 <= k < |now| && InBatch(now, version, k) :: now[k].Blank(version)
    ensures Exact(was, now, version)
  {
    forall k | 0 <= k < |was| && was[k].Ready(version)
      ensures now[k].decidedUnder == Some(version) <==> BlanksBelow(was, version, k) < EVAL_BATCH
    {
      assert RowEvolved(was[k], now[k], version);
      if now[k] == was[k] {
        StuckBehindBlanks(now, version, k);
        BlanksStay(was, now, version, k);
      }
    }
  }

  ghost predicate ChangedOnlyIn(was: seq<FileRow>, now: seq<FileRow>, ks: seq<nat>) {
    |now| == |was| && forall k | 0 <= k < |was| && now[k] != was[k] :: k in ks
  }

  /** A batch of one pass: what it changes was in the batch. */
  lemma BatchesCompose(first: seq<FileRow>, start: seq<FileRow>, now: seq<FileRow>, version: string)
    requires Evolved(first, start, version) && Reached(first, start, version) && Evolved(start, now, version)
    requires ChangedOnlyIn(start, now, Batch(start, version, |start|))
    ensures Evolved(first, now, version) && Reached(first, now, version)
  {
    BatchIs(start, version, |start|);
    forall k | 0 <= k < |first| ensures RowEvolved(first[k], now[k], version) {
      assert RowEvolved(first[k], start[k], version) && RowEvolved(start[k], now[k], version);
    }
    forall k | 0 <= k < |first| && now[k] != first[k] ensures BlanksBelow(first, version, k) < EVAL_BATCH {
      if now[k] != start[k] { BlanksStay(first, start, version, k); }
    }
  }

  ghost predicate AllBlank(files: seq<FileRow>, version: string, batch: seq<nat>) {
    forall m | 0 <= m < |batch| :: batch[m] < |files| && files[batch[m]].Blank(version)
  }

  /** A batch without progress: nothing changed, and what is left undecided is exactly what must be. */
  lemma NoProgressIsStuck(first: seq<FileRow>, start: seq<FileRow>, now: seq<FileRow>, version: string)
    requires Evolved(first, start, version) && Reached(first, start, version) && Evolved(start, now, version)
    requires ChangedOnlyIn(start, now, Batch(start, version, |start|))
    requires AllBlank(start, version, Batch(start, version, |start|))
    ensures now == start && Exact(first, now, version)
  {
    BatchIs(start, version, |start|);
    var batch := Batch(start, version, |start|);
    forall k | k in batch ensures start[k].Blank(version) {
      var m :| 0 <= m < |batch| && batch[m] == k;
    }
    forall k | 0 <= k < |start| ensures now[k] == start[k] {
      assert RowEvolved(start[k], now[k], version);
    }
    StuckIsExact(first, start, version);
  }

  function Decided(files: seq<FileRow>, version: string, k: nat): seq<FileRow>
    requires k < |files|
  {
    if files[k].facts.None? then files else files[k := files[k].(decidedUnder := Some(version))]
  }

  /** One file of a batch, not dealt with before, is. */
  lemma OneDecision(start: seq<FileRow>, was: seq<FileRow>, version: string, batch: seq<nat>, i: nat)
    requires i < |batch| && batch[i] < |start| && batch[i] !in batch[..i] && start[batch[i]].Pending(version)
    requires Evolved(start, was, version) && ChangedOnlyIn(start, was, batch[..i])
    ensures was[batch[i]] == start[batch[i]]
    ensures
      var now := Decided(was, version, batch[i]);
      && Evolved(start, now, version) && Evolved(was, now, version) && ChangedOnlyIn(start, now, batch[..i + 1])
      && ReadyBelow(now, version, |start|)
        == ReadyBelow(was, version, |start|) - if start[batch[i]].Ready(version) then 1 else 0
  {
    var k := batch[i];
    assert batch[..i + 1] == batch[..i] + [k];
    var now := Decided(was, version, k);
    assert was[k] == start[k];
    forall m | 0 <= m < |start| ensures RowEvolved(start[m], now[m], version) {
      assert RowEvolved(start[m], was[m], version);
    }
    if was[k].facts.Some? { DecidingOneCounts(was, version, k, |was|); }
  }

  predicate Busy(jobs: map<JobId, FileJob>, k: nat) { exists i | i in jobs :: jobs[i].open && jobs[i].file == k }

  /** Jobs are kept as they are; each new one is open, and for a file decided meanwhile. */
  ghost predicate JobsGrew(
      was: map<JobId, FileJob>, now: map<JobId, FileJob>, before: seq<FileRow>, after: seq<FileRow>)
  {
    && was.Keys <= now.Keys && (forall i | i in was :: now[i] == was[i])
    && forall i | i in now && i !in was :: NewJobFits(now[i], before, after)
  }

  ghost predicate NewJobFits(job: FileJob, before: seq<FileRow>, after: seq<FileRow>) {
    job.open && job.file < |before| && job.file < |after| && after[job.file] != before[job.file]
  }

  lemma JobsGrewTwice(
      j0: map<JobId, FileJob>, j1: map<JobId, FileJob>, j2: map<JobId, FileJob>,
      f0: seq<FileRow>, f1: seq<FileRow>, f2: seq<FileRow>, version: string)
    requires Evolved(f0, f1, version) && Evolved(f1, f2, version)
    requires JobsGrew(j0, j1, f0, f1) && JobsGrew(j1, j2, f1, f2)
    ensures JobsGrew(j0, j2, f0, f2)
  {
    forall i | i in j2 && i !in j0
      ensures NewJobFits(j2[i], f0, f2)
    {
      var k := j2[i].file;
      if i in j1 { assert j2[i] == j1[i]; }
      assert RowEvolved(f0[k], f1[k], version) && RowEvolved(f1[k], f2[k], version);
    }
  }

  /** Of the files decided meanwhile, each that is owed a job has an open one, but for those that are missed;
   *  and each new job is for a file that is owed one.
   */
  ghost predicate Served(
      before: seq<FileRow>, after: seq<FileRow>, was: map<JobId, FileJob>, now: map<JobId, FileJob>,
      owing: set<nat>, missed: set<nat>)
  {
    && (forall k: nat | k < |before| && k < |after| && after[k] != before[k] && k in owing - missed :: Busy(now, k))
    && (forall k | k in missed ::
          k < |before| && k < |after| && after[k] != before[k] && k in owing && !Busy(now, k))
    && (forall i | i in now && i !in was :: now[i].file in owing)
  }

  lemma BusyStays(was: map<JobId, FileJob>, now: map<JobId, FileJob>, k: nat)
    requires was.Keys <= now.Keys && (forall i | i in was :: now[i] == was[i]) && Busy(was, k)
    ensures Busy(now, k)
  {
    var i :| i in was && was[i].open && was[i].file == k;
    assert i in now;
  }

  lemma OneServed(
      f: seq<FileRow>, j0: map<JobId, FileJob>, j1: map<JobId, FileJob>, version: string, k: nat,
      owing: set<nat>, ok: bool)
    requires k < |f| && f[k].Pending(version) && JobsGrew(j0, j1, f, Decided(f, version, k))
    requires f[k].facts.Some? && k in owing && !Busy(j0, k) ==> (ok <==> j1 != j0)
    requires f[k].facts.None? || k !in owing || Busy(j0, k) ==> ok && j1 == j0
    ensures Served(f, Decided(f, version, k), j0, j1, owing, if ok then {} else {k})
  {
    if j1 != j0 {
      var i :| i in j1 && i !in j0;
      assert NewJobFits(j1[i], f, Decided(f, version, k));
    }
    forall i | i in j1 && i !in j0 ensures j1[i].file in owing {
      assert NewJobFits(j1[i], f, Decided(f, version, k));
    }
  }

  lemma ServedTwice(
      f0: seq<FileRow>, f1: seq<FileRow>, f2: seq<FileRow>,
      j0: map<JobId, FileJob>, j1: map<JobId, FileJob>, j2: map<JobId, FileJob>,
      version: string, owing: set<nat>, missed: set<nat>)
    requires Evolved(f0, f1, version) && Evolved(f1, f2, version)
    requires JobsGrew(j0, j1, f0, f1) && JobsGrew(j1, j2, f1, f2)
    requires Served(f0, f1, j0, j1, owing, {}) && Served(f1, f2, j1, j2, owing, missed)
    ensures Served(f0, f2, j0, j2, owing, missed)
  {
    forall k: nat | k < |f0| && f2[k] != f0[k] && k in owing - missed ensures Busy(j2, k) {
      if f2[k] == f1[k] { BusyStays(j1, j2, k); }
    }
    forall k | k in missed ensures k < |f0| && f2[k] != f0[k] {
      assert RowEvolved(f0[k], f1[k], version) && RowEvolved(f1[k], f2[k], version);
    }
    forall i | i in j2 && i !in j0 ensures j2[i].file in owing {
      if i in j1 { assert j2[i] == j1[i]; }
    }
  }

  /** Rows only decided, and only where they can be reached; jobs only added, and only where owed. */
  ghost predicate Kept(
      f0: seq<FileRow>, f: seq<FileRow>, j0: map<JobId, FileJob>, j: map<JobId, FileJob>,
      version: string)
  {
    Evolved(f0, f, version) && Reached(f0, f, version) && JobsGrew(j0, j, f0, f)
  }

  /** The totals count each decided file and each new job once. */
  ghost predicate Tallied(
      f0: seq<FileRow>, f: seq<FileRow>, j0: map<JobId, FileJob>, j: map<JobId, FileJob>, version: string, t: Totals)
    requires |f| == |f0|
  {
    && t.Balanced() && |j| - |j0| == t.jobsCreated
    && t.evaluated == ReadyBelow(f0, version, |f0|) - ReadyBelow(f, version, |f|)
  }

  lemma BatchKeeps(
      f0: seq<FileRow>, f1: seq<FileRow>, f2: seq<FileRow>,
      j0: map<JobId, FileJob>, j1: map<JobId, FileJob>, j2: map<JobId, FileJob>,
      version: string)
    requires Kept(f0, f1, j0, j1, version) && Evolved(f1, f2, version)
    requires JobsGrew(j1, j2, f1, f2) && ChangedOnlyIn(f1, f2, Batch(f1, version, |f1|))
    ensures Kept(f0, f2, j0, j2, version)
  {
    BatchesCompose(f0, f1, f2, version);
    JobsGrewTwice(j0, j1, j2, f0, f1, f2, version);
  }

  /** What the totals say once some files have been dealt with and so many jobs created. */
  ghost predicate Counted(
      start: seq<FileRow>, now: seq<FileRow>, version: string, done: seq<nat>, created: int, t: Totals, u: Totals)
    requires |now| == |start|
  {
    && u.Balanced() && created == u.jobsCreated - t.jobsCreated && t.evaluated <= u.evaluated
    && u.evaluated == t.evaluated + ReadyBelow(start, version, |start|) - ReadyBelow(now, version, |start|)
    && (u.evaluated == t.evaluated ==> AllBlank(start, version, done))
  }

  lemma CountedNext(
      start: seq<FileRow>, was: seq<FileRow>, version: string, batch: seq<nat>, i: nat, created: int, after: int,
      t: Totals, u: Totals, v: Totals)
    requires i < |batch| && Workable(start, version, batch) && |was| == |start| && was[batch[i]] == start[batch[i]]
    requires Counted(start, was, version, batch[..i], created, t, u)
    requires v.Balanced() && after - created == v.jobsCreated - u.jobsCreated
    requires start[batch[i]].Ready(version) || start[batch[i]].Blank(version)
    requires v.evaluated == u.evaluated + if start[batch[i]].Ready(version) then 1 else 0
    requires ReadyBelow(Decided(was, version, batch[i]), version, |start|)
      == ReadyBelow(was, version, |start|) - if start[batch[i]].Ready(version) then 1 else 0
    ensures Counted(start, Decided(was, version, batch[i]), version, batch[..i + 1], after, t, v)
  {
    if v.evaluated == t.evaluated { BlankSoFar(start, version, batch, i); }
  }

  lemma BlankSoFar(start: seq<FileRow>, version: string, batch: seq<nat>, i: nat)
    requires i < |batch| && batch[i] < |start| && AllBlank(start, version, batch[..i]) && start[batch[i]].Blank(version)
    ensures AllBlank(start, version, batch[..i + 1])
  {
    assert batch[..i + 1] == batch[..i] + [batch[i]];
  }

  /** Files not decided meanwhile have no new jobs. */
  lemma BusyAsBefore(f0: seq<FileRow>, f: seq<FileRow>, j0: map<JobId, FileJob>, j: map<JobId, FileJob>, k: nat)
    requires |f| == |f0| && JobsGrew(j0, j, f0, f) && k < |f0| && f[k] == f0[k]
    ensures Busy(j, k) <==> Busy(j0, k)
  {
    if Busy(j0, k) { BusyStays(j0, j, k); }
    if Busy(j, k) {
      var i :| i in j && j[i].open && j[i].file == k;
      assert i !in j0 ==> NewJobFits(j[i], f0, f);
    }
  }

  class Evaluator {
    var files: seq<FileRow>
    var jobs: map<JobId, FileJob>
    const rules: seq<Policy.Rule>
    const version: string
    const thresholds: Policy.SizeThresholds
    const idFor: (nat, Policy.JobSpec) -> JobId

    constructor (rows: seq<FileRow>, table: map<JobId, FileJob>, policy: seq<Policy.Rule>, v: string,
                 t: Policy.SizeThresholds, ids: (nat, Policy.JobSpec) -> JobId)
      ensures files == rows && jobs == table && rules == policy && version == v && thresholds == t && idFor == ids
    {
      files, jobs, rules, version, thresholds, idFor := rows, table, policy, v, t, ids;
    }

    /** The job a file is owed, if any. */
    function Owed(f: Policy.Facts): Option<Policy.JobSpec> {
      Policy.NextJob(Policy.Evaluate(f, rules), f, thresholds)
    }

    /** The files that are owed a job. */
    ghost function Owing(rows: seq<FileRow>): set<nat> {
      set k: nat | k < |rows| && rows[k].facts.Some? && Owed(rows[k].facts.value).Some?
    }

    lemma OwingStays(was: seq<FileRow>, now: seq<FileRow>)
      requires Evolved(was, now, version)
      ensures Owing(now) == Owing(was)
    {
      forall k: nat | k < |was| ensures k in Owing(now) <==> k in Owing(was) {
        assert RowEvolved(was[k], now[k], version);
      }
    }

    /** Whether a file's decision comes to that, given whether the file has an open job. */
    predicate ComesTo(row: FileRow, busy: bool, kind: Kind) {
      && row.facts.Some?
      && var d := Policy.Evaluate(row.facts.value, rules).class_;
         match kind
         case QuarantinedNow => d == Policy.Quarantined
         case BusyAlready => d !in {Policy.Nothing, Policy.Quarantined} && busy
         case NothingOwed =>
           d == Policy.Nothing || (d != Policy.Quarantined && !busy && Owed(row.facts.value).None?)
    }

    /** How many of the files below a bound were decided meanwhile and come to that. */
    ghost function CountBelow(was: seq<FileRow>, now: seq<FileRow>, table: map<JobId, FileJob>, kind: Kind, n: nat): nat
      requires |now| == |was| && n <= |was|
    {
      if n == 0 then 0
      else
        CountBelow(was, now, table, kind, n - 1)
        + if now[n - 1] != was[n - 1] && ComesTo(was[n - 1], Busy(table, n - 1), kind) then 1 else 0
    }

    /** What is counted beside the jobs: each file decided meanwhile, by what its decision came to. */
    ghost predicate Classed(was: seq<FileRow>, now: seq<FileRow>, table: map<JobId, FileJob>, t: Totals, u: Totals)
      requires |now| == |was|
    {
      && u.quarantined == t.quarantined + CountBelow(was, now, table, QuarantinedNow, |was|)
      && u.noWork == t.noWork + CountBelow(was, now, table, NothingOwed, |was|)
      && u.alreadyBusy == t.alreadyBusy + CountBelow(was, now, table, BusyAlready, |was|)
    }

    lemma {:induction false} NothingCounts(rows: seq<FileRow>, table: map<JobId, FileJob>, kind: Kind, n: nat)
      requires n <= |rows|
      ensures CountBelow(rows, rows, table, kind, n) == 0
    {
      if n > 0 { NothingCounts(rows, table, kind, n - 1); }
    }

    lemma NothingIsClassed(rows: seq<FileRow>, table: map<JobId, FileJob>, t: Totals)
      ensures Classed(rows, rows, table, t, t)
    {
      forall kind: Kind { NothingCounts(rows, table, kind, |rows|); }
    }

    lemma {:induction false} OneMoreCounts(
        start: seq<FileRow>, was: seq<FileRow>, table: map<JobId, FileJob>, kind: Kind, k: nat, n: nat)
      requires |was| == |start| && k < |start| && was[k] == start[k] && start[k].Pending(version) && n <= |start|
      ensures CountBelow(start, Decided(was, version, k), table, kind, n) ==
        CountBelow(start, was, table, kind, n) + if k < n && ComesTo(start[k], Busy(table, k), kind) then 1 else 0
    {
      if n > 0 { OneMoreCounts(start, was, table, kind, k, n - 1); }
    }

    lemma {:induction false} CountsInTwo(
        f0: seq<FileRow>, f1: seq<FileRow>, f2: seq<FileRow>, j0: map<JobId, FileJob>, j1: map<JobId, FileJob>,
        kind: Kind, n: nat)
      requires Evolved(f0, f1, version) && Evolved(f1, f2, version) && JobsGrew(j0, j1, f0, f1) && n <= |f0|
      ensures CountBelow(f0, f2, j0, kind, n) == CountBelow(f0, f1, j0, kind, n) + CountBelow(f1, f2, j1, kind, n)
    {
      if n > 0 {
        var k := n - 1;
        CountsInTwo(f0, f1, f2, j0, j1, kind, k);
        assert RowEvolved(f0[k], f1[k], version) && RowEvolved(f1[k], f2[k], version);
        if f1[k] == f0[k] { BusyAsBefore(f0, f1, j0, j1, k); }
      }
    }

    lemma ClassedNext(start: seq<FileRow>, was: seq<FileRow>, j0: map<JobId, FileJob>, jobsWere: map<JobId, FileJob>,
                      k: nat, t: Totals, u: Totals, v: Totals)
      requires Evolved(start, was, version) && JobsGrew(j0, jobsWere, start, was)
      requires k < |start| && was[k] == start[k] && was[k].Pending(version) && Classed(start, was, j0, t, u)
      requires forall kind: Kind :: v.Of(kind) == u.Of(kind) + if ComesTo(was[k], Busy(jobsWere, k), kind) then 1 else 0
      ensures Classed(start, Decided(was, version, k), j0, t, v)
    {
      BusyAsBefore(start, was, j0, jobsWere, k);
      forall kind: Kind {
        OneMoreCounts(start, was, j0, kind, k, |start|);
      }
    }

    lemma ClassedTwice(f0: seq<FileRow>, f1: seq<FileRow>, f2: seq<FileRow>,
                       j0: map<JobId, FileJob>, j1: map<JobId, FileJob>, t: Totals, u: Totals, v: Totals)
      requires Evolved(f0, f1, version) && Evolved(f1, f2, version) && JobsGrew(j0, j1, f0, f1)
      requires Classed(f0, f1, j0, t, u) && Classed(f1, f2, j1, u, v)
      ensures Classed(f0, f2, j0, t, v)
    {
      forall kind: Kind ensures v.Of(kind) == t.Of(kind) + CountBelow(f0, f2, j0, kind, |f0|) {
        CountsInTwo(f0, f1, f2, j0, j1, kind, |f0|);
      }
    }

    /** Decide one file: a job is added exactly when one is owed and none is open; an id that is already taken
     *  is the error the whole evaluation stops with, and leaves the file decided without a job.
     */
    method EvaluateOne(k: nat, t: Totals) returns (u: Totals, ok: bool)
      requires k < |files| && OneOpenJobPerFile(jobs) && t.Balanced()
      requires files[k].Pending(version)
      modifies this
      ensures files == if old(files)[k].facts.None? then old(files)
                       else old(files)[k := old(files)[k].(decidedUnder := Some(version))]
      ensures OneOpenJobPerFile(jobs)
      ensures JobsGrew(old(jobs), jobs, old(files), files)
      ensures old(files)[k].facts.None? ==> ok && jobs == old(jobs)
      ensures ok && old(files)[k].facts.Some? ==>
        (jobs != old(jobs) <==> Owed(old(files)[k].facts.value).Some? && !Busy(old(jobs), k))
      ensures !ok ==> old(files)[k].facts.Some? && Owed(old(files)[k].facts.value).Some? && !Busy(old(jobs), k)
      ensures !ok ==> idFor(k, Owed(old(files)[k].facts.value).value) in old(jobs) && jobs == old(jobs)
      ensures ok ==> u.Balanced()
      ensures ok ==> u.evaluated == t.evaluated + if old(files)[k].Ready(version) then 1 else 0
      ensures ok ==> u.unprobed == t.unprobed + if old(files)[k].Blank(version) then 1 else 0
      ensures ok ==> |jobs| - |old(jobs)| == u.jobsCreated - t.jobsCreated
      ensures ok ==> forall kind: Kind ::
        u.Of(kind) == t.Of(kind) + if ComesTo(old(files)[k], Busy(old(jobs), k), kind) then 1 else 0
    {
      u := t;
      if files[k].facts.None? { return u.(unprobed := u.unprobed + 1), true; }
      var facts := files[k].facts.value;
      var decision := Policy.Evaluate(facts, rules);
      files := files[k := files[k].(decidedUnder := Some(version))];
      u := u.(evaluated := u.evaluated + 1);
      match decision.class_ {
        case Nothing => return u.(noWork := u.noWork + 1), true;
        case Quarantined => return u.(quarantined := u.quarantined + 1), true;
        case _ =>
      }
      if Busy(jobs, k) {
        return u.(alreadyBusy := u.alreadyBusy + 1), true;
      }
      var spec := Policy.NextJob(decision, facts, thresholds);
      if spec.None? { return u.(noWork := u.noWork + 1), true; }
      var id := idFor(k, spec.value);
      if id in jobs { return u, false; }
      jobs := jobs[id := FileJob(k, true)];
      u := u.(jobsCreated := u.jobsCreated + 1);
      ok := true;
    }

    lemma OneIsServed(was: seq<FileRow>, jobsWere: map<JobId, FileJob>, k: nat, ok: bool)
      requires k < |was| && was[k].Pending(version) && JobsGrew(jobsWere, jobs, was, Decided(was, version, k))
      requires was[k].facts.None? ==> ok && jobs == jobsWere
      requires ok && was[k].facts.Some? ==>
        (jobs != jobsWere <==> Owed(was[k].facts.value).Some? && !Busy(jobsWere, k))
      requires !ok ==>
        was[k].facts.Some? && Owed(was[k].facts.value).Some? && !Busy(jobsWere, k) && jobs == jobsWere
      ensures Served(was, Decided(was, version, k), jobsWere, jobs, Owing(was), if ok then {} else {k})
    {
      OneServed(was, jobsWere, jobs, version, k, Owing(was), ok);
    }

    /** The same, after a batch that has served every file so far. */
    lemma StillServed(start: seq<FileRow>, was: seq<FileRow>, j0: map<JobId, FileJob>, jobsWere: map<JobId, FileJob>,
                      k: nat, ok: bool)
      requires Evolved(start, was, version) && JobsGrew(j0, jobsWere, start, was)
      requires Served(start, was, j0, jobsWere, Owing(start), {})
      requires k < |was| && was[k].Pending(version) && JobsGrew(jobsWere, jobs, was, Decided(was, version, k))
      requires Evolved(was, Decided(was, version, k), version)
      requires Served(was, Decided(was, version, k), jobsWere, jobs, Owing(was), if ok then {} else {k})
      ensures Served(start, Decided(was, version, k), j0, jobs, Owing(start), if ok then {} else {k})
      ensures JobsGrew(j0, jobs, start, Decided(was, version, k))
    {
      OwingStays(start, was);
      var now := Decided(was, version, k);
      ServedTwice(start, was, now, j0, jobsWere, jobs, version, Owing(start), if ok then {} else {k});
      JobsGrewTwice(j0, jobsWere, jobs, start, was, now, version);
    }

    /** Where a batch stands once so many of its files have been dealt with. */
    ghost predicate SoFar(start: seq<FileRow>, j0: map<JobId, FileJob>, batch: seq<nat>, i: nat, missed: set<nat>)
      requires i <= |batch|
      reads this
    {
      && OneOpenJobPerFile(jobs) && Evolved(start, files, version) && ChangedOnlyIn(start, files, batch[..i])
      && JobsGrew(j0, jobs, start, files) && Served(start, files, j0, jobs, Owing(start), missed)
    }

    /** Deal with one file of a batch. */
    method EvaluateNext(ghost start: seq<FileRow>, ghost j0: map<JobId, FileJob>, batch: seq<nat>, i: nat,
                        ghost t: Totals, u: Totals) returns (v: Totals, ok: bool)
      requires Workable(start, version, batch) && i < |batch| && SoFar(start, j0, batch, i, {})
      requires Counted(start, files, version, batch[..i], |jobs| - |j0|, t, u) && Classed(start, files, j0, t, u)
      modifies this
      ensures SoFar(start, j0, batch, i + 1, if ok then {} else {batch[i]})
      ensures ok ==> Counted(start, files, version, batch[..i + 1], |jobs| - |j0|, t, v)
      ensures ok ==> Classed(start, files, j0, t, v)
    {
      ghost var was, jobsWere := files, jobs;
      OneDecision(start, was, version, batch, i);
      v, ok := EvaluateOne(batch[i], u);
      assert files == Decided(was, version, batch[i]);
      OneIsServed(was, jobsWere, batch[i], ok);
      StillServed(start, was, j0, jobsWere, batch[i], ok);
      if ok {
        CountedNext(start, was, version, batch, i, |jobsWere| - |j0|, |jobs| - |j0|, t, u, v);
        ClassedNext(start, was, j0, jobsWere, batch[i], t, u, v);
      }
    }

    /** Decide the files of one batch, in order. */
    method EvaluateBatch(batch: seq<nat>, t: Totals) returns (u: Totals, ok: bool, ghost missed: set<nat>)
      requires OneOpenJobPerFile(jobs) && t.Balanced()
      requires Workable(files, version, batch)
      modifies this
      ensures OneOpenJobPerFile(jobs) && Evolved(old(files), files, version)
      ensures JobsGrew(old(jobs), jobs, old(files), files)
      ensures ChangedOnlyIn(old(files), files, batch)
      ensures Served(old(files), files, old(jobs), jobs, Owing(old(files)), missed)
      ensures if ok then missed == {} else |missed| == 1
      ensures ok ==> u.Balanced() && |jobs| - |old(jobs)| == u.jobsCreated - t.jobsCreated
      ensures ok ==>
        u.evaluated == t.evaluated + ReadyBelow(old(files), version, |files|) - ReadyBelow(files, version, |files|)
      ensures ok ==> t.evaluated <= u.evaluated && Classed(old(files), files, old(jobs), t, u)
      ensures ok && u.evaluated == t.evaluated ==> AllBlank(old(files), version, batch)
    {
      u, missed := t, {};
      ghost var start, j0 := files, jobs;
      NothingIsClassed(start, j0, t);
      var i := 0;
      while i < |batch|
        invariant 0 <= i <= |batch| && missed == {} && SoFar(start, j0, batch, i, {})
        invariant Counted(start, files, version, batch[..i], |jobs| - |j0|, t, u) && Classed(start, files, j0, t, u)
      {
        u, ok := EvaluateNext(start, j0, batch, i, t, u);
        missed := if ok then {} else {batch[i]};
        i := i + 1;
        if !ok {
          assert forall k | k in batch[..i] :: k in batch;
          return;
        }
      }
      assert batch[..i] == batch;
      ok := true;
    }

    /** One turn of the loop: query, decide, and stop when there was nothing to query or no progress. */
    method Pass(ghost f0: seq<FileRow>, ghost j0: map<JobId, FileJob>, t: Totals)
      returns (u: Totals, ok: bool, done: bool, ghost missed: set<nat>)
      requires OneOpenJobPerFile(jobs) && Kept(f0, files, j0, jobs, version)
      requires Tallied(f0, files, j0, jobs, version, t) && Served(f0, files, j0, jobs, Owing(f0), {})
      requires Classed(f0, files, j0, Zero(), t)
      modifies this
      ensures OneOpenJobPerFile(jobs) && Kept(f0, files, j0, jobs, version)
      ensures ok ==> Tallied(f0, files, j0, jobs, version, u) && Classed(f0, files, j0, Zero(), u)
      ensures Served(f0, files, j0, jobs, Owing(f0), missed)
      ensures if ok then missed == {} else |missed| == 1
      ensures ok && done ==> Exact(f0, files, version)
      ensures ok && !done ==> ReadyBelow(files, version, |files|) < ReadyBelow(old(files), version, |old(files)|)
    {
      var batch := Batch(files, version, |files|);
      if batch == [] {
        NothingPending(f0, files, version);
        return t, true, true, {};
      }
      ghost var start, jobsWere := files, jobs;
      BatchIsPending(start, version);
      u, ok, missed := EvaluateBatch(batch, t);
      OwingStays(f0, start);
      ServedTwice(f0, start, files, j0, jobsWere, jobs, version, Owing(f0), missed);
      BatchKeeps(f0, start, files, j0, jobsWere, jobs, version);
      if ok { ClassedTwice(f0, start, files, j0, jobsWere, Zero(), t, u); }
      done := u.evaluated == t.evaluated;
      if ok && done { NoProgressIsStuck(f0, start, files, version); }
    }

    /** Evaluate every file whose decision predates the policy.  The loop ends; unless an id was taken, it
     *  decides exactly the files that fewer than a batch of undecidable files come before, each once.  Each
     *  file it decided that is owed a job has an open one, except, when an id was taken, one file.
     */
    method EvaluateLibrary() returns (total: Totals, ok: bool, ghost missed: set<nat>)
      requires OneOpenJobPerFile(jobs)
      modifies this
      ensures OneOpenJobPerFile(jobs)
      ensures Kept(old(files), files, old(jobs), jobs, version)
      ensures ok ==> Tallied(old(files), files, old(jobs), jobs, version, total) && Exact(old(files), files, version)
      ensures ok ==> Classed(old(files), files, old(jobs), Zero(), total)
      ensures Served(old(files), files, old(jobs), jobs, Owing(old(files)), missed)
      ensures if ok then missed == {} else |missed| == 1
    {
      total, missed := Zero(), {};
      NothingIsClassed(files, jobs, Zero());
      while true
        invariant OneOpenJobPerFile(jobs)
        invariant Kept(old(files), files, old(jobs), jobs, version)
        invariant Tallied(old(files), files, old(jobs), jobs, version, total)
        invariant Classed(old(files), files, old(jobs), Zero(), total)
        invariant missed == {} && Served(old(files), files, old(jobs), jobs, Owing(old(files)), {})
        decreases ReadyBelow(files, version, |files|)
      {
        var done;
        total, ok, done, missed := Pass(old(files), old(jobs), total);
        if !ok || done { return; }
      }
    }
  }
}
