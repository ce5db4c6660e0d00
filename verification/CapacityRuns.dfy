/** The slot ledger over any sequence of its operations. */
module CapacityRuns {
  import opened Jobs
  import opened Optional
  import opened Capacity

  datatype Op =
    | SetLimits(agent: AgentId, lim: AgentLimits)
    | RemoveAgent(agent: AgentId)
    | TryAcquire(agent: AgentId, job: JobId, grant: Grant)
    | Release(job: JobId)
    | Rebuild(rows: seq<Row>)

  function After(l: Ledger, op: Op): Ledger {
    match op
    case SetLimits(a, lim) => Limited(l, a, lim)
    case RemoveAgent(a) => Forgotten(l, a)
    case TryAcquire(a, j, g) => if Obstacle(l, a, j, g) == None then Granted(l, a, j, g) else l
    case Release(j) => Released(l, j)
    case Rebuild(rows) => Replay(Emptied(l), rows).0
  }

  function AfterAll(l: Ledger, ops: seq<Op>): Ledger {
    if ops == [] then l else After(AfterAll(l, ops[..|ops| - 1]), ops[|ops| - 1])
  }

  /** A database has one row for a job. */
  ghost predicate RowsApart(op: Op) {
    op.Rebuild? ==> forall r, s | r in op.rows && s in op.rows && r.job == s.job :: r == s
  }

  // ---- One holder each

  lemma StepKeepsOneHolder(l: Ledger, op: Op)
    requires OneHolderEach(l) && RowsApart(op)
    ensures OneHolderEach(After(l, op))
  {
    if op.Rebuild? { ReplayHoldsOnce(Emptied(l), op.rows); }
  }

  /** Whatever is asked of it, and in whatever order, the ledger never has one job held by two agents. */
  lemma {:induction false} OneHolderOverAnyRun(l: Ledger, ops: seq<Op>)
    requires OneHolderEach(l) && forall op | op in ops :: RowsApart(op)
    ensures OneHolderEach(AfterAll(l, ops))
  {
    if ops != [] {
      var n := |ops| - 1;
      OneHolderOverAnyRun(l, ops[..n]);
      assert ops[n] in ops;
      StepKeepsOneHolder(AfterAll(l, ops[..n]), ops[n]);
    }
  }

  // ---- Limits that are lowered

  /** Nothing here sets the agent's limits again, forgets it, or rebuilds its holdings. */
  ghost predicate LeavesLimits(ops: seq<Op>, a: AgentId) {
    forall op | op in ops :: !op.Rebuild? && !(op.SetLimits? && op.agent == a) && !(op.RemoveAgent? && op.agent == a)
  }

  function Most(m: nat, n: nat): nat { if m < n then n else m }

  /** No more of anything is held than was at first, or than the limit allows, whichever is more. */
  ghost predicate Draining(h: Holdings, k: Holdings, lim: AgentLimits) {
    && |k| <= Most(|h|, lim.totalSlots)
    && (forall c: JobClass :: |OfClass(k, c)| <= Most(|OfClass(h, c)|, lim.ClassLimit(c)))
    && |OfLarge(k)| <= Most(|OfLarge(h)|, lim.largeSlots)
  }

  lemma OneMoreDrains(h: Holdings, k: Holdings, lim: AgentLimits, j: JobId, g: Grant)
    requires Draining(h, k, lim) && j !in k
    requires |k| < lim.totalSlots && |OfClass(k, g.class_)| < lim.ClassLimit(g.class_)
    requires g.size == Large ==> |OfLarge(k)| < lim.largeSlots
    ensures Draining(h, k[j := g], lim)
  {
    assert k[j := g].Keys == k.Keys + {j};
    OneMoreLarge(k, j, g);
    forall c: JobClass ensures |OfClass(k[j := g], c)| <= Most(|OfClass(h, c)|, lim.ClassLimit(c)) {
      OneMoreOfClass(k, j, g, c);
    }
  }

  lemma FewerDrains(h: Holdings, k: Holdings, lim: AgentLimits, j: JobId)
    requires Draining(h, k, lim)
    ensures Draining(h, k - {j}, lim)
  {
    assert Included(k - {j}, k);
    forall c: JobClass ensures |OfClass(k - {j}, c)| <= |OfClass(k, c)| && |OfLarge(k - {j})| <= |OfLarge(k)| {
      SubsetHoldsNoMore(k - {j}, k, c);
    }
    SubsetHoldsNoMore(k - {j}, k, JobClass.Audio);
  }

  /** What one operation does to the holdings of an agent whose limits it leaves alone. */
  lemma StepAt(l: Ledger, op: Op, a: AgentId)
    requires LeavesLimits([op], a) && a in l.limits
    ensures a in After(l, op).limits && After(l, op).limits[a] == l.limits[a]
    ensures After(l, op).At(a) ==
      if op.TryAcquire? && op.agent == a && Obstacle(l, a, op.job, op.grant) == None then l.At(a)[op.job := op.grant]
      else if op.Release? then l.At(a) - {op.job}
      else l.At(a)
  {
    assert op in [op];
  }

  lemma StepDrains(l: Ledger, op: Op, h: Holdings, a: AgentId)
    requires LeavesLimits([op], a) && a in l.limits && Draining(h, l.At(a), l.limits[a])
    ensures Draining(h, After(l, op).At(a), l.limits[a])
  {
    StepAt(l, op, a);
    if op.TryAcquire? && op.agent == a && Obstacle(l, a, op.job, op.grant) == None {
      assert op.job !in l.At(a);
      OneMoreDrains(h, l.At(a), l.limits[a], op.job, op.grant);
    } else if op.Release? {
      FewerDrains(h, l.At(a), l.limits[a], op.job);
    }
  }

  /** Over any run that leaves an agent's limits alone, however far over them it starts, it only ever comes
   *  down: in all, for each class, and for large jobs.
   */
  lemma {:induction false} UsageFallsToTheLimit(l: Ledger, ops: seq<Op>, a: AgentId)
    requires a in l.limits && LeavesLimits(ops, a)
    ensures a in AfterAll(l, ops).limits && AfterAll(l, ops).limits[a] == l.limits[a]
    ensures Draining(l.At(a), AfterAll(l, ops).At(a), l.limits[a])
  {
    if ops != [] {
      var n := |ops| - 1;
      UsageFallsToTheLimit(l, ops[..n], a);
      assert ops[n] in ops;
      StepAt(AfterAll(l, ops[..n]), ops[n], a);
      StepDrains(AfterAll(l, ops[..n]), ops[n], l.At(a), a);
    }
  }

  /** A limit lowered to what is held or less evicts nothing, and admits nothing until something the agent
   *  holds is released: its holdings stay exactly as they are.
   */
  lemma {:induction false} LoweredLimitFreezes(l: Ledger, a: AgentId, lim: AgentLimits, ops: seq<Op>)
    requires a in l.held && |l.held[a]| >= lim.totalSlots && LeavesLimits(ops, a)
    requires forall op | op in ops && op.Release? :: op.job !in l.held[a]
    ensures
      var m := AfterAll(Limited(l, a, lim), ops);
      a in m.held && m.held[a] == l.held[a] && a in m.limits && m.limits[a] == lim
  {
    if ops != [] {
      var n := |ops| - 1;
      LoweredLimitFreezes(l, a, lim, ops[..n]);
      assert ops[n] in ops;
    }
  }

  // ---- A grant lasts until it is released

  lemma StepKeepsAGrant(l: Ledger, op: Op, a: AgentId, j: JobId)
    requires a in l.held && j in l.held[a]
    requires op != Release(j) && op != RemoveAgent(a) && !op.Rebuild?
    ensures a in After(l, op).held && j in After(l, op).held[a] && After(l, op).held[a][j] == l.held[a][j]
  {
  }

  /** A grant lasts until its job is released or its agent forgotten; as long as it does, whoever asks for
   *  the job again, on any agent, is refused.
   */
  lemma {:induction false} GrantsLast(l: Ledger, ops: seq<Op>, a: AgentId, j: JobId, b: AgentId, g: Grant)
    requires a in l.held && j in l.held[a]
    requires forall op | op in ops :: op != Release(j) && op != RemoveAgent(a) && !op.Rebuild?
    ensures
      var m := AfterAll(l, ops);
      a in m.held && j in m.held[a] && m.held[a][j] == l.held[a][j] && Obstacle(m, b, j, g) != None
  {
    if ops == [] {
      assert l.HeldAnywhere(j);
    } else {
      var n := |ops| - 1;
      assert forall op | op in ops[..n] :: op in ops;
      GrantsLast(l, ops[..n], a, j, b, g);
      assert ops[n] in ops;
      StepKeepsAGrant(AfterAll(l, ops[..n]), ops[n], a, j);
      assert AfterAll(l, ops).HeldAnywhere(j);
    }
  }

  /** Forgetting an agent frees every job it held, and nothing else. */
  lemma ForgettingFreesItsJobs(l: Ledger, a: AgentId, j: JobId)
    requires OneHolderEach(l)
    ensures After(l, RemoveAgent(a)).HeldAnywhere(j) <==> l.HeldAnywhere(j) && !(a in l.held && j in l.held[a])
  {
    var m := After(l, RemoveAgent(a));
    if l.HeldAnywhere(j) && !(a in l.held && j in l.held[a]) {
      var b :| b in l.held && j in l.held[b];
      assert b in m.held;
    }
  }
}
