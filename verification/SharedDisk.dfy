/** Installs that follow one another at the same destinations.
 *
 *  What an install replaces is what it finds when it looks at its destination; from then on the destination
 *  is its own, until a later install looks at it.  Records of earlier installs may be left, and be recovered
 *  later.
 */
module SharedDisk {
  import opened Optional
  import opened Ritual
  import opened RitualRuns

  /** What one install is asked for, and the bytes it puts there. */
  datatype Ask = Ask(req: Request, replacement: nat) {
    /** The install, once it has found what it replaces. */
    function Over(original: nat): Job { Job(req, original, replacement) }
  }

  type Asks = map<Key, Ask>

  predicate Distinct(r: Request) { r.temp != r.final && r.final != r.trash && r.trash != r.temp }

  /** Temporary files are private; destinations are the same, with the same trash, or have nothing in common. */
  predicate Apart(q: Request, r: Request) {
    && q.temp !in {r.temp, r.final, r.trash} && r.temp !in {q.final, q.trash}
    && (q.final == r.final <==> q.trash == r.trash) && q.final != r.trash && q.trash != r.final
  }

  ghost predicate Fit(asks: Asks) {
    && (forall k | k in asks :: asks[k].req.key == k && Distinct(asks[k].req))
    && (forall k, l | k in asks && l in asks && k != l :: Apart(asks[k].req, asks[l].req))
  }

  /** The disk, what every install is doing, what each has found, and whose each destination is. */
  datatype Local = Local(disk: Disk, acts: map<Key, Activity>, found: map<Key, nat>, owner: map<Path, Key>)

  predicate Active(act: Activity) { act.Installing? || act.Recovering? }

  /** Before an install has looked at its destination. */
  predicate Early(act: Activity) { act.Installing? && act.at in {CheckDevice, CheckStaged, Observe} }

  predicate Owns(asks: Asks, s: Local, k: Key)
    requires k in asks
  {
    asks[k].req.final in s.owner && s.owner[asks[k].req.final] == k
  }

  // ---- What happens

  /** The look that finds the destination as it was observed makes it the install's own. */
  predicate Takes(asks: Asks, s: Local, k: Key, a: Answer)
    requires k in asks && k in s.acts
  {
    s.acts[k] == Installing(Observe) && StepJob(s.disk, asks[k].req, s.acts[k], a).1 == Installing(Log(Granted, Open))
  }

  function Called(asks: Asks, s: Local, k: Key, a: Answer): Local
    requires k in asks && k in s.acts
  {
    var (d, act) := StepJob(s.disk, asks[k].req, s.acts[k], a);
    var final := asks[k].req.final;
    if Takes(asks, s, k, a)
    then Local(d, s.acts[k := act], s.found[k := s.disk.files[final].bytes], s.owner[final := k])
    else s.(disk := d, acts := s.acts[k := act])
  }

  function Begun(s: Local, k: Key): Local { s.(acts := s.acts[k := Installing(CheckDevice)]) }

  function Resumed(s: Local, k: Key): Local
    requires k in s.disk.journal
  {
    s.(acts := s.acts[k := Recovering(s.disk.journal[k], Look)])
  }

  function Crashed(s: Local): Local {
    s.(acts := map k | k in s.acts :: if s.acts[k].Idle? then Idle else Stopped)
  }

  /** Somebody else deletes an installed replacement. */
  function Vanished(asks: Asks, s: Local, k: Key): Local
    requires k in asks && k in s.acts
  {
    if Owns(asks, s, k) && k in s.found && CanResume(s.acts[k])
       && PlaceOf(s.disk, asks[k].Over(s.found[k])) == Swapped
    then s.(disk := s.disk.(files := s.disk.files - {asks[k].req.final})) else s
  }

  // ---- The invariant

  /** Its destination is its own: it is accounted for as if there were no other install. */
  predicate OwnerFits(asks: Asks, s: Local, k: Key)
    requires k in asks && k in s.acts
  {
    && k in s.found && s.found[k] != asks[k].replacement
    && !s.acts[k].Idle? && !Early(s.acts[k])
    && Accounted(s.disk, asks[k].Over(s.found[k]), s.acts[k])
  }

  /** Not its own yet, or not any more: it holds nothing but its temporary file and perhaps a record, and does
   *  not move what is at the destination unless there is nothing.
   */
  predicate BystanderFits(asks: Asks, s: Local, k: Key)
    requires k in asks && k in s.acts
  {
    var r, phase, act := asks[k].req, PhaseOf(s.disk, k), s.acts[k];
    && BytesAt(s.disk, r.temp) in {None, Some(asks[k].replacement)}
    && (phase.Some? ==> s.disk.journal[k] == RecordOf(r, phase.value) && r.final in s.owner)
    && match act
       case Idle => phase == None
       case Installing(_) => Early(act) && phase == None
       case Recovering(rec, where) =>
         && rec == RecordOf(r, rec.phase) && phase == (if where.SyncForget? then None else Some(rec.phase))
         && r.final in s.owner && (MovesNext(where) ==> r.final !in s.disk.files)
       case _ => true
  }

  /** About to move the trash to the destination, unless it sees something there. */
  predicate MovesNext(where: Recovery) {
    where == LookAgain(false) || where.DropTempThenRestore? || where.Restore?
  }

  /** A destination no install has looked at is as it was, and its trash holds something else. */
  predicate Pristine(asks: Asks, s: Local, before: Disk, k: Key)
    requires k in asks
  {
    var final, trash := BytesAt(s.disk, asks[k].req.final), BytesAt(s.disk, asks[k].req.trash);
    && final == BytesAt(before, asks[k].req.final) && trash == BytesAt(before, asks[k].req.trash)
    && (final.Some? ==> final != trash)
  }

  predicate KeyFits(asks: Asks, s: Local, before: Disk, k: Key)
    requires k in asks && k in s.acts
  {
    if Owns(asks, s, k) then OwnerFits(asks, s, k)
    else BystanderFits(asks, s, k) && (asks[k].req.final !in s.owner ==> Pristine(asks, s, before, k))
  }

  ghost predicate Fits(asks: Asks, s: Local, before: Disk) {
    && s.acts.Keys == asks.Keys
    && (forall p | p in s.owner :: s.owner[p] in asks && asks[s.owner[p]].req.final == p)
    && forall k | k in asks :: KeyFits(asks, s, before, k)
  }

  /** Nobody else is at work on its destination. */
  ghost predicate Alone(asks: Asks, s: Local, k: Key)
    requires k in asks && s.acts.Keys == asks.Keys
  {
    forall l | l in asks && l != k && asks[l].req.final == asks[k].req.final :: !Active(s.acts[l])
  }

  // ---- One system call

  lemma StepTouchesOnly(d: Disk, req: Request, act: Activity, a: Answer, p: Path, l: Key)
    requires act.Recovering? ==> act.rec == RecordOf(req, act.rec.phase)
    requires p !in {req.temp, req.final, req.trash} && l != req.key
    ensures
      var e := StepJob(d, req, act, a).0;
      && BytesAt(e, p) == BytesAt(d, p)
      && (l in e.journal <==> l in d.journal) && (l in d.journal ==> e.journal[l] == d.journal[l])
  {
  }

  lemma EarlyStepsMoveNothing(d: Disk, req: Request, act: Activity, a: Answer)
    requires Early(act) || !Active(act)
    ensures
      var (e, next) := StepJob(d, req, act, a);
      && e == d
      && (!Active(act) ==> next == act)
      && (Early(act) ==> Early(next) || next.Ended? || (act.at == Observe && next == Installing(Log(Granted, Open))))
  {
  }

  /** What a recovery that is not the owner's does to the owner's account: nothing that matters. */
  lemma LeftoverKeepsOwner(d: Disk, req: Request, rec: Record, where: Recovery, a: Answer, job: Job, act: Activity)
    requires Accounted(d, job, act) && job.Sound() && CanResume(act)
    requires req.final == job.req.final && req.trash == job.req.trash && Apart(req, job.req) && req.key != job.req.key
    requires rec == RecordOf(req, rec.phase) && (where.DropTempThenRestore? || where.Restore? ==> req.final !in d.files)
    ensures Accounted(RecoveryStep(d, rec, where, a).0, job, act)
  {
    MoveMovesTheOriginal(d, job);
  }

  /** What it does to itself. */
  lemma LeftoverKeepsItself(d: Disk, x: Ask, rec: Record, where: Recovery, a: Answer)
    requires Distinct(x.req) && rec == RecordOf(x.req, rec.phase)
    requires BytesAt(d, x.req.temp) in {None, Some(x.replacement)}
    requires PhaseOf(d, x.req.key) == (if where.SyncForget? then None else Some(rec.phase))
    requires PhaseOf(d, x.req.key).Some? ==> d.journal[x.req.key] == rec
    requires MovesNext(where) ==> x.req.final !in d.files
    requires where.Look? && x.req.final in d.files ==> a == Works
    ensures
      var (e, act) := RecoveryStep(d, rec, where, a);
      && BytesAt(e, x.req.temp) in {None, Some(x.replacement)}
      && (PhaseOf(e, x.req.key).Some? ==> e.journal[x.req.key] == rec)
      && (act.Ended? || act.Recovering?)
      && (act.Recovering? ==>
            && act.rec == rec && (MovesNext(act.where) ==> x.req.final !in e.files)
            && PhaseOf(e, x.req.key) == if act.where.SyncForget? then None else Some(rec.phase))
  {
  }

  /** Nothing an install looks at has changed for it. */
  ghost predicate SameTo(asks: Asks, s: Local, t: Local, k: Key)
    requires k in asks && k in s.acts && k in t.acts
  {
    var r := asks[k].req;
    && (forall p | p in {r.temp, r.final, r.trash} :: BytesAt(t.disk, p) == BytesAt(s.disk, p))
    && (k in t.disk.journal <==> k in s.disk.journal)
    && (k in s.disk.journal ==> t.disk.journal[k] == s.disk.journal[k])
    && t.acts[k] == s.acts[k] && (k in s.found ==> k in t.found && t.found[k] == s.found[k])
    && (r.final in t.owner <==> r.final in s.owner) && (r.final in s.owner ==> t.owner[r.final] == s.owner[r.final])
  }

  lemma SameToFits(asks: Asks, s: Local, t: Local, before: Disk, k: Key)
    requires k in asks && k in s.acts && k in t.acts && SameTo(asks, s, t, k) && asks[k].req.key == k
    requires KeyFits(asks, s, before, k)
    ensures KeyFits(asks, t, before, k)
  {
    var r := asks[k].req;
    assert BytesAt(t.disk, r.temp) == BytesAt(s.disk, r.temp);
    assert BytesAt(t.disk, r.final) == BytesAt(s.disk, r.final);
    assert BytesAt(t.disk, r.trash) == BytesAt(s.disk, r.trash);
    if Owns(asks, s, k) {
      assert SameFor(s.disk, t.disk, asks[k].Over(s.found[k]));
      SameDiskSameAccount(s.disk, t.disk, asks[k].Over(s.found[k]), s.acts[k]);
    }
  }

  lemma ElsewhereFits(asks: Asks, s: Local, before: Disk, k: Key, a: Answer, l: Key)
    requires Fit(asks) && Fits(asks, s, before) && k in asks && l in asks && k != l
    requires asks[k].req.final != asks[l].req.final
    ensures KeyFits(asks, Called(asks, s, k, a), before, l)
  {
    var t, q, r := Called(asks, s, k, a), asks[k].req, asks[l].req;
    assert Apart(q, r) && KeyFits(asks, s, before, k);
    forall p | p in {r.temp, r.final, r.trash} ensures BytesAt(t.disk, p) == BytesAt(s.disk, p) {
      StepTouchesOnly(s.disk, q, s.acts[k], a, p, l);
    }
    StepTouchesOnly(s.disk, q, s.acts[k], a, r.temp, l);
    SameToFits(asks, s, t, before, l);
  }

  /** An install that had its destination for its own stands by once another has looked at it. */
  lemma FormerOwnerStandsBy(asks: Asks, s: Local, t: Local, k: Key)
    requires k in asks && k in s.acts && OwnerFits(asks, s, k) && !Active(s.acts[k]) && asks[k].req.key == k
    requires k in t.acts && t.disk == s.disk && t.acts[k] == s.acts[k] && asks[k].req.final in t.owner
    ensures BystanderFits(asks, t, k)
  {
  }

  /** One at work on a destination leaves those that share it, who are not, as they should be. */
  lemma SharersFit(asks: Asks, s: Local, before: Disk, k: Key, a: Answer, l: Key)
    requires Fit(asks) && Fits(asks, s, before) && k in asks && l in asks && k != l && Alone(asks, s, k)
    requires asks[k].req.final == asks[l].req.final && Active(s.acts[k])
    ensures KeyFits(asks, Called(asks, s, k, a), before, l)
  {
    assert Apart(asks[k].req, asks[l].req) && Apart(asks[l].req, asks[k].req);
    assert KeyFits(asks, s, before, k) && KeyFits(asks, s, before, l);
    var t := Called(asks, s, k, a);
    StepTouchesOnly(s.disk, asks[k].req, s.acts[k], a, asks[l].req.temp, l);
    if Early(s.acts[k]) { EarlyStepsMoveNothing(s.disk, asks[k].req, s.acts[k], a); }
    if Owns(asks, s, l) {
      if Early(s.acts[k]) {
        if Takes(asks, s, k, a) { FormerOwnerStandsBy(asks, s, t, l); }
      } else {
        LeftoverKeepsOwner(s.disk, asks[k].req, s.acts[k].rec, s.acts[k].where, a, asks[l].Over(s.found[l]), s.acts[l]);
      }
    }
  }

  /** What an early install finds is not in the trash as well. */
  lemma FindsOneCopy(asks: Asks, s: Local, before: Disk, k: Key)
    requires Fit(asks) && Fits(asks, s, before) && k in asks && !Owns(asks, s, k)
    requires asks[k].req.final in s.disk.files
    ensures BytesAt(s.disk, asks[k].req.final) != BytesAt(s.disk, asks[k].req.trash)
  {
    var r := asks[k].req;
    if r.final in s.owner {
      var o := s.owner[r.final];
      assert KeyFits(asks, s, before, o) && Apart(asks[o].req, r);
    } else {
      assert KeyFits(asks, s, before, k);
    }
  }

  /** What it finds is its original, at home. */
  lemma TakingFits(asks: Asks, s: Local, before: Disk, k: Key, a: Answer)
    requires Fit(asks) && Fits(asks, s, before) && k in asks && Takes(asks, s, k, a) && !Owns(asks, s, k)
    requires s.disk.files[asks[k].req.final].bytes != asks[k].replacement
    ensures KeyFits(asks, Called(asks, s, k, a), before, k)
  {
    FindsOneCopy(asks, s, before, k);
    assert KeyFits(asks, s, before, k);
    TakingIsHome(asks, s, k, a);
  }

  lemma TakingIsHome(asks: Asks, s: Local, k: Key, a: Answer)
    requires k in asks && k in s.acts && BystanderFits(asks, s, k) && Takes(asks, s, k, a) && asks[k].req.key == k
    requires BytesAt(s.disk, asks[k].req.final) != BytesAt(s.disk, asks[k].req.trash)
    requires s.disk.files[asks[k].req.final].bytes != asks[k].replacement
    ensures OwnerFits(asks, Called(asks, s, k, a), k)
  {
  }

  /** The disk answers truly to whoever looks for a destination that is not its own. */
  predicate Sees(asks: Asks, s: Local, k: Key, a: Answer)
    requires k in asks && k in s.acts
  {
    s.acts[k].Recovering? && s.acts[k].where.Look? && !Owns(asks, s, k) && asks[k].req.final in s.disk.files ==>
      a == Works
  }

  /** An output is not, byte for byte, what it is to replace. */
  predicate Differs(asks: Asks, s: Local, k: Key, a: Answer)
    requires k in asks && k in s.acts
  {
    Takes(asks, s, k, a) ==> s.disk.files[asks[k].req.final].bytes != asks[k].replacement
  }

  lemma OwnStepFits(asks: Asks, s: Local, before: Disk, k: Key, a: Answer)
    requires Fit(asks) && Fits(asks, s, before) && k in asks && Sees(asks, s, k, a) && Differs(asks, s, k, a)
    ensures KeyFits(asks, Called(asks, s, k, a), before, k)
  {
    assert KeyFits(asks, s, before, k);
    if Owns(asks, s, k) {
      OwnersStepFits(asks, s, k, a);
    } else if Takes(asks, s, k, a) {
      TakingFits(asks, s, before, k, a);
    } else if s.acts[k].Recovering? {
      LeftoverKeepsItself(s.disk, asks[k], s.acts[k].rec, s.acts[k].where, a);
    } else {
      EarlyStepsMoveNothing(s.disk, asks[k].req, s.acts[k], a);
    }
  }

  lemma OwnersStepFits(asks: Asks, s: Local, k: Key, a: Answer)
    requires k in asks && k in s.acts && OwnerFits(asks, s, k) && Distinct(asks[k].req)
    ensures OwnerFits(asks, Called(asks, s, k, a), k)
  {
    StepKeepsAccounted(s.disk, asks[k].Over(s.found[k]), s.acts[k], a);
  }

  lemma CallKeepsFits(asks: Asks, s: Local, before: Disk, k: Key, a: Answer)
    requires Fit(asks) && Fits(asks, s, before) && k in asks && (Active(s.acts[k]) ==> Alone(asks, s, k))
    requires Sees(asks, s, k, a) && Differs(asks, s, k, a)
    ensures Fits(asks, Called(asks, s, k, a), before)
  {
    var t := Called(asks, s, k, a);
    if !Active(s.acts[k]) {
      assert t.acts == s.acts && t == s;
    } else {
      OwnersAreSound(asks, s, k, a);
      forall l | l in asks ensures KeyFits(asks, t, before, l) {
        OneFits(asks, s, before, k, a, l);
      }
    }
  }

  lemma OneFits(asks: Asks, s: Local, before: Disk, k: Key, a: Answer, l: Key)
    requires Fit(asks) && Fits(asks, s, before) && k in asks && l in asks && Active(s.acts[k]) && Alone(asks, s, k)
    requires Sees(asks, s, k, a) && Differs(asks, s, k, a)
    ensures KeyFits(asks, Called(asks, s, k, a), before, l)
  {
    if l == k {
      OwnStepFits(asks, s, before, k, a);
    } else if asks[l].req.final == asks[k].req.final {
      SharersFit(asks, s, before, k, a, l);
    } else {
      ElsewhereFits(asks, s, before, k, a, l);
    }
  }

  lemma OwnersAreSound(asks: Asks, s: Local, k: Key, a: Answer)
    requires k in asks && s.acts.Keys == asks.Keys
    requires forall p | p in s.owner :: s.owner[p] in asks && asks[s.owner[p]].req.final == p
    ensures
      var t := Called(asks, s, k, a);
      && t.acts.Keys == asks.Keys
      && forall p | p in t.owner :: t.owner[p] in asks && asks[t.owner[p]].req.final == p
  {
  }

  // ---- What a system call may change

  /** An install may add or remove its record, or end; a recovery may remove it, or end. */
  predicate Does(s: Local, t: Local, k: Key)
    requires k in s.acts && k in t.acts
  {
    var act, next := s.acts[k], t.acts[k];
    && (next.Idle? <==> act.Idle?) && (next.Installing? ==> act.Installing?) && (next.Recovering? ==> act.Recovering?)
    && (k in t.disk.journal && k !in s.disk.journal ==> act.Installing?)
    && (k in s.disk.journal && k !in t.disk.journal ==> Active(act))
  }

  /** Nothing of this install has changed. */
  predicate Spares(s: Local, t: Local, k: Key)
    requires k in s.acts && k in t.acts
  {
    t.acts[k] == s.acts[k] && (k in t.disk.journal <==> k in s.disk.journal)
  }

  lemma StepDoes(d: Disk, req: Request, act: Activity, a: Answer)
    requires act.Recovering? ==> act.rec == RecordOf(req, act.rec.phase)
    ensures
      var (e, next) := StepJob(d, req, act, a);
      && (next.Idle? <==> act.Idle?) && (next.Installing? ==> act.Installing?)
      && (next.Recovering? ==> act.Recovering?)
      && (req.key in e.journal && req.key !in d.journal ==> act.Installing?)
      && (req.key in d.journal && req.key !in e.journal ==> Active(act))
  {
  }

  lemma CallDoes(asks: Asks, s: Local, before: Disk, k: Key, a: Answer)
    requires Fit(asks) && Fits(asks, s, before) && k in asks
    ensures Does(s, Called(asks, s, k, a), k)
  {
    StepDoes(s.disk, asks[k].req, s.acts[k], a);
  }

  lemma CallIsLocal(asks: Asks, s: Local, before: Disk, k: Key, a: Answer, l: Key)
    requires Fit(asks) && Fits(asks, s, before) && k in asks && l in asks && k != l
    ensures Spares(s, Called(asks, s, k, a), l)
  {
    assert Apart(asks[k].req, asks[l].req);
    StepTouchesOnly(s.disk, asks[k].req, s.acts[k], a, asks[l].req.temp, l);
  }

  // ---- Beginning, resuming, crashing

  lemma BeginKeepsFits(asks: Asks, s: Local, before: Disk, k: Key)
    requires Fits(asks, s, before) && k in asks && s.acts[k].Idle?
    ensures Fits(asks, Begun(s, k), before)
  {
    forall l | l in asks ensures KeyFits(asks, Begun(s, k), before, l) {
      assert KeyFits(asks, s, before, l);
    }
  }

  lemma ResumeFits(asks: Asks, s: Local, before: Disk, k: Key)
    requires k in asks && k in s.acts && KeyFits(asks, s, before, k) && asks[k].req.key == k
    requires CanResume(s.acts[k]) && k in s.disk.journal
    ensures KeyFits(asks, Resumed(s, k), before, k)
  {
  }

  lemma ResumeKeepsFits(asks: Asks, s: Local, before: Disk, k: Key)
    requires Fit(asks) && Fits(asks, s, before) && k in asks && CanResume(s.acts[k]) && k in s.disk.journal
    ensures Fits(asks, Resumed(s, k), before)
  {
    ResumeFits(asks, s, before, k);
    forall l | l in asks && l != k ensures KeyFits(asks, Resumed(s, k), before, l) {
      assert SameTo(asks, s, Resumed(s, k), l) && KeyFits(asks, s, before, l);
      SameToFits(asks, s, Resumed(s, k), before, l);
    }
  }

  lemma CrashKeepsFits(asks: Asks, s: Local, before: Disk)
    requires Fits(asks, s, before)
    ensures Fits(asks, Crashed(s), before)
  {
    forall k | k in asks ensures KeyFits(asks, Crashed(s), before, k) {
      assert KeyFits(asks, s, before, k);
    }
  }

  lemma VanishKeepsFits(asks: Asks, s: Local, before: Disk, k: Key)
    requires Fit(asks) && Fits(asks, s, before) && k in asks
    ensures Fits(asks, Vanished(asks, s, k), before)
  {
    var t := Vanished(asks, s, k);
    forall l | l in asks ensures KeyFits(asks, t, before, l) {
      VanishFits(asks, s, before, k, l);
    }
  }

  lemma VanishedIsAway(d: Disk, job: Job, act: Activity)
    requires Accounted(d, job, act) && CanResume(act) && PlaceOf(d, job) == Swapped && job.Sound()
    ensures Accounted(d.(files := d.files - {job.req.final}), job, act)
  {
  }

  lemma VanishFits(asks: Asks, s: Local, before: Disk, k: Key, l: Key)
    requires Fit(asks) && Fits(asks, s, before) && k in asks && l in asks
    ensures KeyFits(asks, Vanished(asks, s, k), before, l)
  {
    var t := Vanished(asks, s, k);
    assert KeyFits(asks, s, before, k) && KeyFits(asks, s, before, l);
    if t != s {
      if l == k {
        VanishedIsAway(s.disk, asks[k].Over(s.found[k]), s.acts[k]);
      } else {
        assert Apart(asks[k].req, asks[l].req);
        VanishSpares(asks, s, before, k, l);
      }
    }
  }

  lemma VanishSpares(asks: Asks, s: Local, before: Disk, k: Key, l: Key)
    requires k in asks && l in asks && k != l && k in s.acts && l in s.acts && KeyFits(asks, s, before, l)
    requires Owns(asks, s, k) && Apart(asks[k].req, asks[l].req) && asks[l].req.key == l
    ensures KeyFits(asks, Vanished(asks, s, k), before, l)
  {
    var t, r := Vanished(asks, s, k), asks[l].req;
    if r.final != asks[k].req.final {
      forall p | p in {r.temp, r.final, r.trash} ensures BytesAt(t.disk, p) == BytesAt(s.disk, p) {
      }
      SameToFits(asks, s, t, before, l);
    } else {
      assert BytesAt(t.disk, r.temp) == BytesAt(s.disk, r.temp);
    }
  }

  // ---- What follows

  /** Every commit is kept from the look that made its destination its own to the next one's: what it found is
   *  at exactly one of destination and trash, and what else is at the destination is nothing or all it puts
   *  there.
   */
  lemma OwnerKeepsOneCopy(asks: Asks, s: Local, before: Disk, p: Path)
    requires Fits(asks, s, before) && p in s.owner
    ensures s.owner[p] in asks && s.owner[p] in s.found
    ensures
      var x, original := asks[s.owner[p]], s.found[s.owner[p]];
      var final, trash := BytesAt(s.disk, p), BytesAt(s.disk, x.req.trash);
      && (final == Some(original)) != (trash == Some(original))
      && final in {None, Some(original), Some(x.replacement)}
  {
    assert KeyFits(asks, s, before, s.owner[p]);
  }

  /** A commit finds what the one before it left: what that one had found, or what it put there. */
  lemma CommitFindsWhatWasLeft(asks: Asks, s: Local, before: Disk, k: Key, a: Answer, o: Key)
    requires Fits(asks, s, before) && k in asks && Takes(asks, s, k, a)
    requires asks[k].req.final in s.owner && o == s.owner[asks[k].req.final]
    ensures o in asks && o in s.found
    ensures Called(asks, s, k, a).found[k] in {s.found[o], asks[o].replacement}
  {
    assert KeyFits(asks, s, before, o);
  }

  // ---- Why what is there must be seen

  lemma {:induction false} SettledMovesNothing(
      d: Disk, req: Request, rec: Record, where: Recovery, answers: seq<Answer>, job: Job)
    requires where.DropTemp? || where.Forget? || where.SyncForget?
    requires rec.temp !in {job.req.final, job.req.trash}
    ensures PlaceOf(Drive(d, req, Recovering(rec, where), answers).disk, job) == PlaceOf(d, job)
    decreases |answers|
  {
    if answers != [] {
      var (e, act) := RecoveryStep(d, rec, where, answers[0]);
      if act.Recovering? {
        SettledMovesNothing(e, req, rec, act.where, answers[1..], job);
      } else {
        assert Drive(e, req, act, answers[1..]) == Progress(e, act, answers[1..]);
      }
    }
  }

  lemma RestoringMoves(d: Disk, req: Request, rec: Record, dropAfter: bool, answers: seq<Answer>, job: Job)
    requires answers != [] && answers[0] == Works && rec.temp !in {job.req.final, job.req.trash}
    ensures
      PlaceOf(Drive(d, req, Recovering(rec, Restore(dropAfter)), answers).disk, job)
        == if rec.trash in d.files then PlaceOf(Moved(d, rec.trash, rec.final), job) else PlaceOf(d, job)
  {
    var (e, act) := RecoveryStep(d, rec, Restore(dropAfter), answers[0]);
    assert Drive(d, req, Recovering(rec, Restore(dropAfter)), answers) == Drive(e, req, act, answers[1..]);
    if act.Recovering? {
      SettledMovesNothing(e, req, rec, act.where, answers[1..], job);
    } else {
      assert Drive(e, req, act, answers[1..]) == Progress(e, act, answers[1..]);
    }
  }

  /** Whether a recovery is about to move the trash over a destination it has not seen. */
  predicate MovesBlindly(d: Disk, rec: Record, job: Job, first: Answer, second: Answer) {
    && PlaceOf(d, job) == Home && rec.phase != Granted && rec.trash in d.files
    && first == Fails && second == Works
  }

  /** The record an earlier install left, recovered while a later install's original is at home: that original
   *  is lost if and only if the destination was not seen, an older one is in the trash and the record says
   *  that it was retired.
   */
  lemma LeftoverLosesExactlyWhen(d: Disk, rec: Record, job: Job, act: Activity, answers: seq<Answer>)
    requires Accounted(d, job, act) && job.Sound() && CanResume(act)
    requires rec.final == job.req.final && rec.trash == job.req.trash && rec.temp !in {rec.final, rec.trash}
    requires |answers| >= 4 && forall i | 2 <= i < |answers| :: answers[i] == Works
    ensures
      PlaceOf(Drive(d, job.req, Recovering(rec, Look), answers).disk, job) == Lost
      <==> MovesBlindly(d, rec, job, answers[0], answers[1])
  {
    var r := job.req;
    var finalSeen := answers[0] == Works && rec.final in d.files;
    var where := Decide(rec, finalSeen, answers[1] == Works && rec.trash in d.files);
    assert answers[1..][1..] == answers[2..] && answers[2..][1..] == answers[3..];
    assert Drive(d, r, Recovering(rec, Look), answers)
      == Drive(d, r, Recovering(rec, LookAgain(finalSeen)), answers[1..]);
    assert Drive(d, r, Recovering(rec, LookAgain(finalSeen)), answers[1..])
      == Drive(d, r, Recovering(rec, where), answers[2..]);
    MoveMovesTheOriginal(d, job);
    if where.Restore? {
      RestoringMoves(d, r, rec, where.dropAfter, answers[2..], job);
    } else if where.DropTempThenRestore? {
      var e := Removed(d, rec.temp, Works);
      assert Drive(d, r, Recovering(rec, where), answers[2..])
        == Drive(e, r, Recovering(rec, Restore(false)), answers[3..]);
      RestoringMoves(e, r, rec, false, answers[3..], job);
      RemovingFirst(d, rec, job);
    } else {
      SettledMovesNothing(d, r, rec, where, answers[2..], job);
    }
  }

  lemma RemovingFirst(d: Disk, rec: Record, job: Job)
    requires rec.final == job.req.final && rec.trash == job.req.trash && rec.temp !in {rec.final, rec.trash}
    requires rec.trash in d.files
    ensures
      var e := Removed(d, rec.temp, Works);
      && rec.trash in e.files && PlaceOf(e, job) == PlaceOf(d, job)
      && PlaceOf(Moved(e, rec.trash, rec.final), job) == PlaceOf(Moved(d, rec.trash, rec.final), job)
  {
  }
}
