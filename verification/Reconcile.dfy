/** Deciding what an agent's silence means. */
module Reconcile {
  import opened Optional
  import opened Jobs

  const LEASE_GRACE_SECONDS: int := 90

  datatype InFlight = InFlight(
    job: JobId,
    state: JobState,
    agent: Option<AgentId>,
    leaseExpires: Option<int>,
    hasLiveIntent: bool)

  datatype Action =
    | Requeue(job: JobId, from: JobState)
    | Escalate(job: JobId)
    | ReleaseCapacity(job: JobId)

  /** Connected, with a lease that has not run out by more than the grace. */
  predicate Attended(f: InFlight, connected: set<AgentId>, now: int, grace: int) {
    && f.agent.Some? && f.agent.value in connected
    && f.leaseExpires.Some? && now <= f.leaseExpires.value + grace
  }

  /** Between the two renames only the disk knows. */
  predicate MidCommit(f: InFlight) { f.state == Committing || f.hasLiveIntent }

  function Verdict(f: InFlight, connected: set<AgentId>, now: int, grace: int): seq<Action> {
    if Attended(f, connected, now, grace) then []
    else if MidCommit(f) then [Escalate(f.job)]
    else [ReleaseCapacity(f.job), Requeue(f.job, f.state)]
  }

  function Verdicts(fs: seq<InFlight>, connected: set<AgentId>, now: int, grace: int): seq<Action> {
    if fs == [] then []
    else Verdicts(fs[..|fs| - 1], connected, now, grace) + Verdict(fs[|fs| - 1], connected, now, grace)
  }

  method Reconcile(fs: seq<InFlight>, connected: set<AgentId>, now: int, grace: int) returns (actions: seq<Action>)
    ensures actions == Verdicts(fs, connected, now, grace)
  {
    actions := [];
    var i := 0;
    while i < |fs|
      invariant 0 <= i <= |fs|
      invariant actions == Verdicts(fs[..i], connected, now, grace)
    {
      assert fs[..i + 1][..i] == fs[..i];
      var f := fs[i];
      i := i + 1;
      var agentPresent := f.agent.Some? && f.agent.value in connected;
      var leaseOk := f.leaseExpires.Some? && now <= f.leaseExpires.value + grace;
      if agentPresent && leaseOk { continue; }
      if f.state == Committing || f.hasLiveIntent {
        actions := actions + [Escalate(f.job)];
        continue;
      }
      actions := actions + [ReleaseCapacity(f.job)];
      actions := actions + [Requeue(f.job, f.state)];
    }
    assert fs[..i] == fs;
  }

  /** Nobody is at it: it has no agent, its agent is not connected or has no lease, or the lease ran out longer
   *  ago than the grace.
   */
  predicate Silent(f: InFlight, connected: set<AgentId>, now: int, grace: int) {
    f.agent.None? || f.agent.value !in connected || f.leaseExpires.None? || now - f.leaseExpires.value > grace
  }

  lemma VerdictNames(f: InFlight, connected: set<AgentId>, now: int, grace: int, j: JobId)
    ensures
      var v := Verdict(f, connected, now, grace);
      var silent := f.job == j && Silent(f, connected, now, grace);
      && (Escalate(j) in v <==> silent && (f.state == Committing || f.hasLiveIntent))
      && (forall s: JobState ::
            Requeue(j, s) in v <==> silent && f.state == s && f.state != Committing && !f.hasLiveIntent)
      && (ReleaseCapacity(j) in v <==> Requeue(j, f.state) in v)
  {
    var v := Verdict(f, connected, now, grace);
    if |v| == 2 { assert v[0] == ReleaseCapacity(f.job) && v[1] == Requeue(f.job, f.state); }
    if |v| == 1 { assert v[0] == Escalate(f.job); }
  }

  /** Exactly the silent jobs are acted on; exactly those of them that are mid-commit are escalated, and no
   *  commit is ever returned to the queue.
   */
  lemma {:induction false} SilenceIsNeverGuessed(
      fs: seq<InFlight>, connected: set<AgentId>, now: int, grace: int, j: JobId)
    ensures Escalate(j) in Verdicts(fs, connected, now, grace) <==>
      exists f | f in fs :: f.job == j && Silent(f, connected, now, grace) && (f.state == Committing || f.hasLiveIntent)
    ensures forall s: JobState :: Requeue(j, s) in Verdicts(fs, connected, now, grace) <==>
      exists f | f in fs ::
        f.job == j && f.state == s && Silent(f, connected, now, grace) && f.state != Committing && !f.hasLiveIntent
    ensures ReleaseCapacity(j) in Verdicts(fs, connected, now, grace) <==>
      exists s: JobState :: Requeue(j, s) in Verdicts(fs, connected, now, grace)
    ensures Requeue(j, Committing) !in Verdicts(fs, connected, now, grace)
  {
    if fs != [] {
      var n := |fs| - 1;
      SilenceIsNeverGuessed(fs[..n], connected, now, grace, j);
      assert fs == fs[..n] + [fs[n]];
      var v := Verdict(fs[n], connected, now, grace);
      assert Verdicts(fs, connected, now, grace) == Verdicts(fs[..n], connected, now, grace) + v;
      VerdictNames(fs[n], connected, now, grace, j);
      if ReleaseCapacity(j) in v { assert Requeue(j, fs[n].state) in Verdicts(fs, connected, now, grace); }
    }
  }
}
