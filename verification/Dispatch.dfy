/** Deciding which agent runs which job.
 *
 *  `Place` and `Outcomes` say what a round decides with no cache at all; the class keeps the
 *  eligibility cache and the two nested loops, and is proved to decide the same.
 */
module Dispatch {
  import opened Optional
  import opened Jobs
  import opened Capability
  import opened Capacity

  datatype AgentEntry = AgentEntry(
    id: AgentId,
    capability: Profile,
    commitEligible: bool,
    accepting: bool,
    workareaFreeBytes: nat)

  datatype QueuedJob = QueuedJob(
    id: JobId,
    class_: JobClass,
    size: SizeBucket,
    requirements: seq<Requirement>,
    bucketKey: Bucket,
    excludedAgents: seq<AgentId>)
  {
    function Needs(): Grant { Grant(class_, size) }

    predicate Keyed() { bucketKey == BucketKey(requirements) }
  }

  datatype Detail =
    | ShortOfBytes(free: nat, need: nat)
    | ShortOfCores(have: real, needed: real)
    | NoMount(prefix: string)
    | NoSlot(agent: AgentId, why: Refusal)
    | EveryCapableAgentIsFull
    | NothingSatisfies(categorical: seq<Requirement>)

  datatype Stage = AtCapability | AtCapacity

  datatype Outcome =
    | Placed(job: JobId, agent: AgentId)
    | Held(job: JobId, stage: Stage, detail: Detail)

  predicate Distinct(agents: seq<AgentEntry>) {
    forall i, k | 0 <= i < k < |agents| :: agents[i].id != agents[k].id
  }

  /** The checks kept out of the bucket key, one requirement. */
  function Misfit(a: AgentEntry, r: Requirement): Option<Detail> {
    match r
    case MinFreeBytes(need) =>
      if a.workareaFreeBytes < need then Some(ShortOfBytes(a.workareaFreeBytes, need)) else None
    case MinEffectiveCores(need) =>
      if a.capability.effectiveCores < need then Some(ShortOfCores(a.capability.effectiveCores, need)) else None
    case MountCovers(prefix) =>
      if Covers(a.capability.mounts, prefix) then None else Some(NoMount(prefix))
    case _ => None
  }

  /** The first of those checks that fails. */
  function Admits(a: AgentEntry, reqs: seq<Requirement>): Option<Detail> {
    if reqs == [] then None
    else if Misfit(a, reqs[0]).Some? then Misfit(a, reqs[0])
    else Admits(a, reqs[1..])
  }

  /** Worth asking at all. */
  predicate Candidate(a: AgentEntry, job: QueuedJob) {
    a.accepting && a.commitEligible && a.id !in job.excludedAgents
  }

  /** A candidate that the job's bucket is open to. */
  predicate Capable(a: AgentEntry, job: QueuedJob) {
    Candidate(a, job) && Satisfies(a.capability, Categorical(job.requirements)) == None
  }

  /** Everything but a free slot. */
  predicate Suitable(a: AgentEntry, job: QueuedJob) {
    Capable(a, job) && Admits(a, job.requirements) == None
  }

  /** The first verdict on a decode. */
  predicate FirstVerdict(decoders: seq<DecoderCapability>, t: DecoderTriple, i: nat) {
    i < |decoders| && decoders[i].triple == t && forall k | 0 <= k < i :: decoders[k].triple != t
  }

  /** The agent has what a requirement asks for: a decode if the first verdict on it is that it was verified, bytes
   *  and paths as the dispatcher knows them, and all else as the agent advertises it.
   */
  ghost predicate Provides(a: AgentEntry, r: Requirement) {
    var p := a.capability;
    match r
    case NeedsClass(c) => c in p.classes
    case NeedsEncoder(e) => e in p.encoders
    case NeedsDecoder(t) =>
      exists i: nat :: FirstVerdict(p.decoders, t, i) && p.decoders[i].status == VerifiedOk
    case NeedsMuxer(m) => m in p.muxers
    case MinEffectiveCores(n) => n <= p.effectiveCores
    case MinFreeBytes(b) => b <= a.workareaFreeBytes
    case MountCovers(prefix) => exists m | m in p.mounts :: m.writable && m.canonicalPrefix <= prefix
    case PlatformIn(allowed) => exists o | o in allowed :: p.platform == Some(o)
    case LabelEquals(k, v) => (k, v) in p.labels
  }

  /** Takes work, may install, is not excluded, and has what partitions agents. */
  ghost predicate RightKind(a: AgentEntry, job: QueuedJob) {
    && a.accepting && a.commitEligible && a.id !in job.excludedAgents
    && forall r | r in job.requirements ::
         r.MinEffectiveCores? || r.MinFreeBytes? || r.MountCovers? || Provides(a, r)
  }

  /** Takes work, may install, is not excluded, and has everything the job asks for. */
  ghost predicate FitFor(a: AgentEntry, job: QueuedJob) {
    a.accepting && a.commitEligible && a.id !in job.excludedAgents && forall r | r in job.requirements :: Provides(a, r)
  }

  lemma FirstVerdictOfTheRest(decoders: seq<DecoderCapability>, t: DecoderTriple, i: nat)
    requires decoders != [] && decoders[0].triple != t
    ensures FirstVerdict(decoders, t, i + 1) <==> FirstVerdict(decoders[1..], t, i)
  {
    assert forall k | 0 <= k < |decoders| - 1 :: decoders[k + 1] == decoders[1..][k];
    if FirstVerdict(decoders[1..], t, i) {
      forall k | 0 <= k < i + 1 ensures decoders[k].triple != t {
        if k > 0 { assert decoders[k] == decoders[1..][k - 1]; }
      }
    }
  }

  lemma {:induction false} StatusIsTheFirst(decoders: seq<DecoderCapability>, t: DecoderTriple, i: nat)
    requires FirstVerdict(decoders, t, i)
    ensures StatusOf(decoders, t) == decoders[i].status
  {
    if i > 0 {
      FirstVerdictOfTheRest(decoders, t, i - 1);
      StatusIsTheFirst(decoders[1..], t, i - 1);
    }
  }

  lemma {:induction false} SomeVerdict(decoders: seq<DecoderCapability>, t: DecoderTriple)
    requires StatusOf(decoders, t) != Untested
    ensures exists i: nat :: FirstVerdict(decoders, t, i)
  {
    if decoders[0].triple == t {
      assert FirstVerdict(decoders, t, 0);
    } else {
      SomeVerdict(decoders[1..], t);
      var i: nat :| FirstVerdict(decoders[1..], t, i);
      FirstVerdictOfTheRest(decoders, t, i);
      assert FirstVerdict(decoders, t, i + 1);
    }
  }

  lemma ProvidesExactlyWhen(a: AgentEntry, r: Requirement)
    ensures r.IsCategorical() ==> (Met(a.capability, r) <==> Provides(a, r))
    ensures !r.IsCategorical() ==> (Misfit(a, r) == None <==> Provides(a, r))
  {
    if r.NeedsDecoder? {
      var decoders := a.capability.decoders;
      if StatusOf(decoders, r.triple) != Untested { SomeVerdict(decoders, r.triple); }
      forall i: nat | FirstVerdict(decoders, r.triple, i) ensures StatusOf(decoders, r.triple) == decoders[i].status {
        StatusIsTheFirst(decoders, r.triple, i);
      }
    }
  }

  /** What the two stages let through is exactly what fits, and the first alone exactly the right kind. */
  lemma SuitableExactlyWhenFit(a: AgentEntry, job: QueuedJob)
    ensures Suitable(a, job) <==> FitFor(a, job)
    ensures Capable(a, job) <==> RightKind(a, job)
  {
    var reqs := job.requirements;
    SatisfiesReportsTheFirstUnmet(a.capability, Categorical(reqs));
    AdmitsWhenNothingMisfits(a, reqs);
    forall r {
      CategoricalMembers(reqs, r);
    }
    forall r | r in reqs {
      ProvidesExactlyWhen(a, r);
    }
    assert Satisfies(a.capability, Categorical(reqs)) == None <==>
      forall r | r in reqs && r.IsCategorical() :: Provides(a, r);
    assert Admits(a, reqs) == None <==> forall r | r in reqs && !r.IsCategorical() :: Provides(a, r);
  }

  lemma {:induction false} AdmitsWhenNothingMisfits(a: AgentEntry, reqs: seq<Requirement>)
    ensures Admits(a, reqs) == None <==> forall r | r in reqs :: Misfit(a, r) == None
    ensures Admits(a, reqs).Some? ==> exists r | r in reqs :: Misfit(a, r) == Admits(a, reqs)
  {
    if reqs != [] {
      assert reqs == [reqs[0]] + reqs[1..];
      assert reqs[0] in reqs;
      AdmitsWhenNothingMisfits(a, reqs[1..]);
    }
  }

  /** The two stages together are the full match, and coverage of every path on top of it; a
   *  streaming agent, which the match excuses from coverage, is not excused here.
   */
  lemma TwoStagesAreTheFullMatch(a: AgentEntry, reqs: seq<Requirement>)
    requires a.workareaFreeBytes == a.capability.workareaFreeBytes
    ensures Satisfies(a.capability, Categorical(reqs)) == None && Admits(a, reqs) == None <==>
      && Satisfies(a.capability, reqs) == None
      && forall r | r in reqs && r.MountCovers? :: Covers(a.capability.mounts, r.prefix)
  {
    SatisfiesReportsTheFirstUnmet(a.capability, reqs);
    SatisfiesReportsTheFirstUnmet(a.capability, Categorical(reqs));
    AdmitsWhenNothingMisfits(a, reqs);
    forall r ensures r in Categorical(reqs) <==> r in reqs && r.IsCategorical() {
      CategoricalMembers(reqs, r);
    }
    forall r | r in reqs
      ensures (r.IsCategorical() ==> Met(a.capability, r)) && Misfit(a, r) == None <==>
        Met(a.capability, r) && (r.MountCovers? ==> Covers(a.capability.mounts, r.prefix))
    {
    }
  }

  /** For an agent that reads through mounts the two stages are exactly the full match. */
  lemma MountAgentsMatchExactly(a: AgentEntry, reqs: seq<Requirement>)
    requires a.workareaFreeBytes == a.capability.workareaFreeBytes && a.capability.transport == Mount
    ensures Satisfies(a.capability, Categorical(reqs)) == None && Admits(a, reqs) == None <==>
      Satisfies(a.capability, reqs) == None
  {
    TwoStagesAreTheFullMatch(a, reqs);
    SatisfiesReportsTheFirstUnmet(a.capability, reqs);
    if Satisfies(a.capability, reqs) == None {
      forall r | r in reqs && r.MountCovers? ensures Covers(a.capability.mounts, r.prefix) {
        assert Met(a.capability, r);
      }
    }
  }

  /** A streaming agent with no mounts matches any job by path, and is never given one. */
  lemma StreamingAgentsAreTurnedAway(a: AgentEntry, reqs: seq<Requirement>, prefix: string)
    requires a.capability.transport == Stream && a.capability.mounts == []
    requires MountCovers(prefix) in reqs
    ensures Met(a.capability, MountCovers(prefix)) && Admits(a, reqs) != None
  {
    AdmitsWhenNothingMisfits(a, reqs);
    assert Misfit(a, MountCovers(prefix)) != None;
  }

  /** What one job has learnt from the agents asked so far. */
  datatype Search = Search(best: Option<AgentId>, lastRefusal: Option<Detail>, sawCapable: bool)

  function Ask(s: Search, a: AgentEntry, job: QueuedJob, l: Ledger): Search {
    if s.best.Some? || !Capable(a, job) then s
    else if Admits(a, job.requirements).Some? then Search(None, Admits(a, job.requirements), true)
    else
      match Obstacle(l, a.id, job.id, job.Needs())
      case None => Search(Some(a.id), s.lastRefusal, true)
      case Some(why) => Search(None, Some(NoSlot(a.id, why)), true)
  }

  function AskAll(agents: seq<AgentEntry>, job: QueuedJob, l: Ledger): Search {
    if agents == [] then Search(None, None, false)
    else Ask(AskAll(agents[..|agents| - 1], job, l), agents[|agents| - 1], job, l)
  }

  function Place(agents: seq<AgentEntry>, job: QueuedJob, l: Ledger): Outcome {
    var s := AskAll(agents, job, l);
    match s.best
    case Some(agent) => Placed(job.id, agent)
    case None =>
      if !s.sawCapable then Held(job.id, AtCapability, NothingSatisfies(Categorical(job.requirements)))
      else Held(job.id, AtCapacity, if s.lastRefusal.Some? then s.lastRefusal.value else EveryCapableAgentIsFull)
  }

  function After(l: Ledger, job: QueuedJob, o: Outcome): Ledger {
    if o.Placed? then Granted(l, o.agent, job.id, job.Needs()) else l
  }

  /** The ledger once the jobs have been dealt with, in order. */
  function LedgerAfter(agents: seq<AgentEntry>, jobs: seq<QueuedJob>, l: Ledger): Ledger {
    if jobs == [] then l
    else
      var m := LedgerAfter(agents, jobs[..|jobs| - 1], l);
      After(m, jobs[|jobs| - 1], Place(agents, jobs[|jobs| - 1], m))
  }

  function Outcomes(agents: seq<AgentEntry>, jobs: seq<QueuedJob>, l: Ledger): (os: seq<Outcome>)
    ensures |os| == |jobs|
  {
    if jobs == [] then []
    else
      var most := jobs[..|jobs| - 1];
      Outcomes(agents, most, l) + [Place(agents, jobs[|jobs| - 1], LedgerAfter(agents, most, l))]
  }

  /** Takes the first suitable agent with a free slot, if any agent is both. */
  lemma {:induction false} AskAllFindsTheFirst(agents: seq<AgentEntry>, job: QueuedJob, l: Ledger)
    ensures
      var s := AskAll(agents, job, l);
      && (s.best == None <==>
            forall i | 0 <= i < |agents| && Suitable(agents[i], job) ::
              Obstacle(l, agents[i].id, job.id, job.Needs()) != None)
      && (s.best.Some? ==> exists i | 0 <= i < |agents| ::
            && s.best == Some(agents[i].id) && Suitable(agents[i], job)
            && Obstacle(l, agents[i].id, job.id, job.Needs()) == None
            && forall k | 0 <= k < i && Suitable(agents[k], job) ::
                 Obstacle(l, agents[k].id, job.id, job.Needs()) != None)
      && (s.best == None ==> (s.sawCapable <==> exists i | 0 <= i < |agents| :: Capable(agents[i], job)))
      && (s.best == None && s.sawCapable ==> s.lastRefusal.Some?)
      && (s.lastRefusal.Some? ==> s.sawCapable && !s.lastRefusal.value.EveryCapableAgentIsFull?)
  {
    if agents != [] {
      var n := |agents| - 1;
      AskAllFindsTheFirst(agents[..n], job, l);
      var t := AskAll(agents[..n], job, l);
      AdmitsWhenNothingMisfits(agents[n], job.requirements);
      if t.best.Some? {
        var i :| 0 <= i < n && t.best == Some(agents[..n][i].id) && Suitable(agents[..n][i], job)
          && Obstacle(l, agents[..n][i].id, job.id, job.Needs()) == None
          && forall k | 0 <= k < i && Suitable(agents[..n][k], job) ::
               Obstacle(l, agents[..n][k].id, job.id, job.Needs()) != None;
        assert agents[i] == agents[..n][i];
        forall k | 0 <= k < i && Suitable(agents[k], job)
          ensures Obstacle(l, agents[k].id, job.id, job.Needs()) != None
        {
          assert agents[k] == agents[..n][k];
        }
      } else {
        forall k | 0 <= k < n ensures agents[k] == agents[..n][k] {
        }
      }
    }
  }

  /** What an outcome means for the job it is about, given the ledger it was decided on: a placement is on the
   *  first agent that fits and has room; a job held back has no such agent, and it is for want of capability
   *  exactly if no agent is even of the right kind.
   */
  ghost predicate Justified(agents: seq<AgentEntry>, job: QueuedJob, l: Ledger, o: Outcome) {
    && o.job == job.id
    && match o
       case Placed(_, agent) =>
         exists i | 0 <= i < |agents| ::
           && agents[i].id == agent && FitFor(agents[i], job)
           && HasRoom(l, agent, job.id, job.Needs())
           && forall k | 0 <= k < i && FitFor(agents[k], job) :: !HasRoom(l, agents[k].id, job.id, job.Needs())
       case Held(_, stage, detail) =>
         && (forall i | 0 <= i < |agents| && FitFor(agents[i], job) ::
               !HasRoom(l, agents[i].id, job.id, job.Needs()))
         && (stage == AtCapability <==> forall i | 0 <= i < |agents| :: !RightKind(agents[i], job))
         && !detail.EveryCapableAgentIsFull?
  }

  lemma PlaceIsJustified(agents: seq<AgentEntry>, job: QueuedJob, l: Ledger)
    ensures Justified(agents, job, l, Place(agents, job, l))
  {
    AskAllFindsTheFirst(agents, job, l);
    forall i | 0 <= i < |agents|
      ensures Suitable(agents[i], job) <==> FitFor(agents[i], job)
      ensures Capable(agents[i], job) <==> RightKind(agents[i], job)
      ensures Obstacle(l, agents[i].id, job.id, job.Needs()) == None <==> HasRoom(l, agents[i].id, job.id, job.Needs())
    {
      SuitableExactlyWhenFit(agents[i], job);
      RefusedExactlyWithoutRoom(l, agents[i].id, job.id, job.Needs());
    }
  }

  /** Why this agent did not get the job: what it lacks, or which limit it is at. */
  ghost predicate Explains(a: AgentEntry, job: QueuedJob, l: Ledger, detail: Detail) {
    match detail
    case NoSlot(id, why) =>
      id == a.id && FitFor(a, job) && Obstacle(l, a.id, job.id, job.Needs()) == Some(why)
    case ShortOfBytes(free, need) => MinFreeBytes(need) in job.requirements && free == a.workareaFreeBytes < need
    case ShortOfCores(have, needed) =>
      MinEffectiveCores(needed) in job.requirements && have == a.capability.effectiveCores < needed
    case NoMount(prefix) => MountCovers(prefix) in job.requirements && !Provides(a, MountCovers(prefix))
    case _ => false
  }

  /** The last agent of the right kind, and no other, is what a job held back is told about. */
  ghost predicate ExplainedByTheLast(agents: seq<AgentEntry>, job: QueuedJob, l: Ledger, detail: Detail, k: nat) {
    && k < |agents| && RightKind(agents[k], job) && Explains(agents[k], job, l, detail)
    && forall m | k < m < |agents| :: !RightKind(agents[m], job)
  }

  lemma RefusalExplains(a: AgentEntry, job: QueuedJob, l: Ledger)
    requires Capable(a, job) && Ask(Search(None, None, false), a, job, l).best == None
    ensures Explains(a, job, l, Ask(Search(None, None, false), a, job, l).lastRefusal.value)
  {
    SuitableExactlyWhenFit(a, job);
    AdmitsWhenNothingMisfits(a, job.requirements);
    if Admits(a, job.requirements).Some? {
      var r :| r in job.requirements && Misfit(a, r) == Admits(a, job.requirements);
      ProvidesExactlyWhen(a, r);
    }
  }

  lemma {:induction false} LastRefusalExplains(agents: seq<AgentEntry>, job: QueuedJob, l: Ledger)
    requires AskAll(agents, job, l).best == None && AskAll(agents, job, l).sawCapable
    ensures AskAll(agents, job, l).lastRefusal.Some?
    ensures exists k :: ExplainedByTheLast(agents, job, l, AskAll(agents, job, l).lastRefusal.value, k)
  {
    var n := |agents| - 1;
    var s := AskAll(agents[..n], job, l);
    SuitableExactlyWhenFit(agents[n], job);
    if Capable(agents[n], job) {
      RefusalExplains(agents[n], job, l);
      assert ExplainedByTheLast(agents, job, l, AskAll(agents, job, l).lastRefusal.value, n);
    } else {
      LastRefusalExplains(agents[..n], job, l);
      var k :| ExplainedByTheLast(agents[..n], job, l, s.lastRefusal.value, k);
      assert forall m | 0 <= m < n :: agents[..n][m] == agents[m];
      assert ExplainedByTheLast(agents, job, l, s.lastRefusal.value, k);
    }
  }

  /** A job held back for want of capacity is told why by the last agent of the right kind; one held back for want of
   *  capability, what partitions agents of all it asked for.
   */
  lemma HeldBackIsExplained(agents: seq<AgentEntry>, job: QueuedJob, l: Ledger)
    requires Place(agents, job, l).Held?
    ensures
      var o := Place(agents, job, l);
      if o.stage == AtCapacity then exists k :: ExplainedByTheLast(agents, job, l, o.detail, k)
      else
        && o.detail.NothingSatisfies?
        && forall r :: r in o.detail.categorical <==>
             r in job.requirements && !r.MinEffectiveCores? && !r.MinFreeBytes? && !r.MountCovers?
  {
    if Place(agents, job, l).stage == AtCapacity {
      LastRefusalExplains(agents, job, l);
    } else {
      forall r {
        CategoricalMembers(job.requirements, r);
      }
    }
  }

  lemma PlaceKeepsTheLedger(agents: seq<AgentEntry>, job: QueuedJob, l: Ledger)
    ensures Grown(l, After(l, job, Place(agents, job, l)))
    ensures WithinLimits(l) && OneHolderEach(l) ==>
      WithinLimits(After(l, job, Place(agents, job, l))) && OneHolderEach(After(l, job, Place(agents, job, l)))
  {
    PlaceIsJustified(agents, job, l);
    var o := Place(agents, job, l);
    if o.Placed? {
      if WithinLimits(l) && OneHolderEach(l) { AcquireKeepsLimits(l, o.agent, job.id, job.Needs()); }
    }
  }

  /** A round takes no ledger past a limit, gives no job a second holder, and takes nothing back. */
  lemma {:induction false} RoundKeepsLimits(agents: seq<AgentEntry>, jobs: seq<QueuedJob>, l: Ledger)
    ensures Grown(l, LedgerAfter(agents, jobs, l))
    ensures WithinLimits(l) && OneHolderEach(l) ==>
      WithinLimits(LedgerAfter(agents, jobs, l)) && OneHolderEach(LedgerAfter(agents, jobs, l))
  {
    if jobs != [] {
      var n := |jobs| - 1;
      RoundKeepsLimits(agents, jobs[..n], l);
      var m := LedgerAfter(agents, jobs[..n], l);
      PlaceKeepsTheLedger(agents, jobs[n], m);
    }
  }

  lemma {:induction false} LedgerGrows(agents: seq<AgentEntry>, jobs: seq<QueuedJob>, l: Ledger, i: nat)
    requires i <= |jobs|
    ensures Grown(LedgerAfter(agents, jobs[..i], l), LedgerAfter(agents, jobs, l))
  {
    var n := |jobs| - 1;
    if i == |jobs| {
      assert jobs[..i] == jobs;
    } else {
      var m := LedgerAfter(agents, jobs[..n], l);
      assert jobs[..n][..i] == jobs[..i];
      LedgerGrows(agents, jobs[..n], l, i);
      PlaceKeepsTheLedger(agents, jobs[n], m);
      GrownIsTransitive(LedgerAfter(agents, jobs[..i], l), m, LedgerAfter(agents, jobs, l));
    }
  }

  lemma {:induction false} EachInItsTurn(agents: seq<AgentEntry>, jobs: seq<QueuedJob>, l: Ledger, i: nat)
    requires i < |jobs|
    ensures Outcomes(agents, jobs, l)[i] == Place(agents, jobs[i], LedgerAfter(agents, jobs[..i], l))
  {
    var n := |jobs| - 1;
    if i < n {
      assert jobs[..n][..i] == jobs[..i];
      EachInItsTurn(agents, jobs[..n], l, i);
    }
  }

  /** Every job is placed or held back once, in the order given, and each outcome is justified. */
  lemma EveryOutcomeIsJustified(agents: seq<AgentEntry>, jobs: seq<QueuedJob>, l: Ledger, i: nat)
    requires i < |jobs|
    ensures Justified(agents, jobs[i], LedgerAfter(agents, jobs[..i], l), Outcomes(agents, jobs, l)[i])
  {
    EachInItsTurn(agents, jobs, l, i);
    PlaceIsJustified(agents, jobs[i], LedgerAfter(agents, jobs[..i], l));
  }

  /** The round is maximal: when it is over, no agent that fits a job held back has room for it. */
  lemma RoundIsMaximal(agents: seq<AgentEntry>, jobs: seq<QueuedJob>, l: Ledger, i: nat, k: nat)
    requires i < |jobs| && k < |agents|
    requires Outcomes(agents, jobs, l)[i].Held? && FitFor(agents[k], jobs[i])
    ensures !HasRoom(LedgerAfter(agents, jobs, l), agents[k].id, jobs[i].id, jobs[i].Needs())
  {
    EveryOutcomeIsJustified(agents, jobs, l, i);
    LedgerGrows(agents, jobs, l, i);
    RefusalPersists(LedgerAfter(agents, jobs[..i], l), LedgerAfter(agents, jobs, l),
                    agents[k].id, jobs[i].id, jobs[i].Needs());
  }

  /** The round ends holding what it began with and its placements, and nothing else. */
  lemma {:induction false} RoundHoldsItsPlacements(
      agents: seq<AgentEntry>, jobs: seq<QueuedJob>, l: Ledger, a: AgentId, j: JobId)
    ensures j in LedgerAfter(agents, jobs, l).At(a) <==> j in l.At(a) || Placed(j, a) in Outcomes(agents, jobs, l)
  {
    if jobs != [] {
      var n := |jobs| - 1;
      RoundHoldsItsPlacements(agents, jobs[..n], l, a, j);
      PlaceIsJustified(agents, jobs[n], LedgerAfter(agents, jobs[..n], l));
    }
  }

  function Placements(os: seq<Outcome>): seq<Outcome> {
    if os == [] then []
    else Placements(os[..|os| - 1]) + if os[|os| - 1].Placed? then [os[|os| - 1]] else []
  }

  function HeldBack(os: seq<Outcome>): seq<Outcome> {
    if os == [] then []
    else HeldBack(os[..|os| - 1]) + if os[|os| - 1].Held? then [os[|os| - 1]] else []
  }

  lemma OneJobMore(agents: seq<AgentEntry>, jobs: seq<QueuedJob>, i: nat, l: Ledger)
    requires i < |jobs|
    ensures
      var m := LedgerAfter(agents, jobs[..i], l);
      && Outcomes(agents, jobs[..i + 1], l) == Outcomes(agents, jobs[..i], l) + [Place(agents, jobs[i], m)]
      && LedgerAfter(agents, jobs[..i + 1], l) == After(m, jobs[i], Place(agents, jobs[i], m))
  {
    assert jobs[..i + 1][..i] == jobs[..i];
  }

  lemma OneOutcomeMore(os: seq<Outcome>, o: Outcome)
    ensures Placements(os + [o]) == Placements(os) + if o.Placed? then [o] else []
    ensures HeldBack(os + [o]) == HeldBack(os) + if o.Held? then [o] else []
  {
    assert (os + [o])[..|os|] == os;
  }

  class Dispatcher {
    var agents: seq<AgentEntry>
    var eligibility: map<Bucket, map<AgentId, bool>>

    /** Every cached answer is the one the agent's capability would give afresh. */
    ghost predicate Valid()
      reads this
    {
      && Distinct(agents)
      && forall b, i | b in eligibility && 0 <= i < |agents| && agents[i].id in eligibility[b] ::
           eligibility[b][agents[i].id] == OpenTo(agents[i].capability, b)
    }

    constructor ()
      ensures Valid() && agents == []
    {
      agents, eligibility := [], map[];
    }

    /** Replace the fleet view, and with it every cached answer. */
    method SetAgents(fleet: seq<AgentEntry>)
      requires Distinct(fleet)
      modifies this
      ensures Valid() && agents == fleet
    {
      agents, eligibility := fleet, map[];
    }

    /** Whether an agent satisfies a bucket, from the cache where it can be. */
    method AgentSatisfies(key: Bucket, i: nat, reqs: seq<Requirement>) returns (ok: bool)
      requires Valid() && i < |agents| && key == BucketKey(reqs)
      modifies `eligibility
      ensures Valid()
      ensures ok == (Satisfies(agents[i].capability, Categorical(reqs)) == None)
    {
      VerdictDependsOnTheKeyAlone(agents[i].capability, reqs);
      var id := agents[i].id;
      if key in eligibility && id in eligibility[key] {
        return eligibility[key][id];
      }
      ok := Satisfies(agents[i].capability, Categorical(reqs)).None?;
      var known := if key in eligibility then eligibility[key] else map[];
      ghost var was := eligibility;
      eligibility := eligibility[key := known[id := ok]];
      forall b, k | b in eligibility && 0 <= k < |agents| && agents[k].id in eligibility[b]
        ensures eligibility[b][agents[k].id] == OpenTo(agents[k].capability, b)
      {
        if b != key || k != i { assert b in was && agents[k].id in was[b]; }
      }
    }

    /** One job: the first agent that is suitable and has a slot. */
    method PlaceOne(job: QueuedJob, ledger: CapacityLedger) returns (o: Outcome)
      requires Valid() && job.Keyed()
      modifies `eligibility, ledger`held
      ensures Valid()
      ensures o == Place(agents, job, old(ledger.Now()))
      ensures ledger.Now() == After(old(ledger.Now()), job, o)
    {
      var best: Option<AgentId> := None;
      var lastRefusal: Option<Detail> := None;
      var sawCapable := false;
      var i := 0;
      while i < |agents| && best.None?
        invariant 0 <= i <= |agents| && Valid()
        invariant Search(best, lastRefusal, sawCapable) == AskAll(agents[..i], job, old(ledger.Now()))
        invariant ledger.Now() ==
          if best.Some? then Granted(old(ledger.Now()), best.value, job.id, job.Needs()) else old(ledger.Now())
      {
        var a := agents[i];
        assert agents[..i + 1][..i] == agents[..i] && agents[..i + 1][i] == a;
        i := i + 1;
        if !a.accepting || !a.commitEligible || a.id in job.excludedAgents { continue; }
        var capable := AgentSatisfies(job.bucketKey, i - 1, job.requirements);
        if !capable { continue; }
        sawCapable := true;
        var misfit := Admits(a, job.requirements);
        if misfit.Some? {
          lastRefusal := misfit;
          continue;
        }
        var r := ledger.TryAcquire(a.id, job.id, job.Needs());
        match r {
          case Admitted => best := Some(a.id);
          case Refused(why) => lastRefusal := Some(NoSlot(a.id, why));
        }
      }
      OnceFoundStaysFound(agents, i, job, old(ledger.Now()));
      match best {
        case Some(agent) => return Placed(job.id, agent);
        case None =>
          if !sawCapable { return Held(job.id, AtCapability, NothingSatisfies(Categorical(job.requirements))); }
          return Held(job.id, AtCapacity,
                      if lastRefusal.Some? then lastRefusal.value else EveryCapableAgentIsFull);
      }
    }

    /** A whole round decides what a dispatcher without a cache would decide. */
    method Dispatch(jobs: seq<QueuedJob>, ledger: CapacityLedger)
      returns (assignments: seq<Outcome>, blocked: seq<Outcome>)
      requires Valid() && forall job | job in jobs :: job.Keyed()
      modifies `eligibility, ledger`held
      ensures Valid()
      ensures assignments == Placements(Outcomes(agents, jobs, old(ledger.Now())))
      ensures blocked == HeldBack(Outcomes(agents, jobs, old(ledger.Now())))
      ensures ledger.Now() == LedgerAfter(agents, jobs, old(ledger.Now()))
    {
      assignments, blocked := [], [];
      ghost var l := ledger.Now();
      var i := 0;
      while i < |jobs|
        invariant 0 <= i <= |jobs| && Valid()
        invariant assignments == Placements(Outcomes(agents, jobs[..i], l))
        invariant blocked == HeldBack(Outcomes(agents, jobs[..i], l))
        invariant ledger.Now() == LedgerAfter(agents, jobs[..i], l)
      {
        OneJobMore(agents, jobs, i, l);
        var o := PlaceOne(jobs[i], ledger);
        OneOutcomeMore(Outcomes(agents, jobs[..i], l), o);
        if o.Placed? { assignments := assignments + [o]; } else { blocked := blocked + [o]; }
        i := i + 1;
      }
      assert jobs[..i] == jobs;
    }
  }

  /** The search ignores the agents after the one it settled on. */
  lemma {:induction false} OnceFoundStaysFound(agents: seq<AgentEntry>, i: nat, job: QueuedJob, l: Ledger)
    requires i <= |agents| && (AskAll(agents[..i], job, l).best.Some? || i == |agents|)
    ensures AskAll(agents, job, l) == AskAll(agents[..i], job, l)
    decreases |agents| - i
  {
    if i == |agents| {
      assert agents[..i] == agents;
    } else {
      assert agents[..i + 1][..i] == agents[..i];
      OnceFoundStaysFound(agents, i + 1, job, l);
    }
  }
}
