/** Many assignments on one agent at once, with revocations and a drain arriving at any moment. */
module WorkerRuns {
  import opened Worker

  /** Where one assignment stands.  Each stage is left in one step, taken under one lock. */
  datatype Stage =
    | Arrived
    | Admitted
    | Encoding
    | Checking
    | Asking
    | Leaving(installed: bool)
    | Released(installed: bool)
    | Over(installed: bool)
  {
    predicate Installed() { (Leaving? || Released? || Over?) && installed }

    /** Past the check for a revocation, on the way to an install. */
    predicate Checked() { Asking? || Installed() }

    /** Taken on, and on the way to an install or past it. */
    predicate OnItsWay() { !Arrived? && (Leaving? || Released? || Over? ==> installed) }
  }

  datatype Task = Task(job: nat, stage: Stage)

  datatype State = State(tasks: seq<Task>, flags: Flags)

  /** `Step` is the next step of one assignment; `good` says whether its encode passed, or permission came. */
  datatype Event = Assign(job: nat) | Step(task: nat, good: bool) | Revoke(job: nat) | Drain

  function StepTask(t: Task, f: Flags, good: bool): (Task, Flags) {
    match t.stage
    case Arrived => (t.(stage := if f.draining then Over(false) else Admitted), f)
    case Admitted => (t.(stage := Encoding), f.Holding(t.job))
    case Encoding => (t.(stage := if good then Checking else Leaving(false)), f)
    case Checking => (t.(stage := if t.job in f.revoked then Leaving(false) else Asking), f)
    case Asking => (t.(stage := Leaving(good)), f)
    case Leaving(installed) => (t.(stage := Released(installed)), f.LettingGo(t.job))
    case Released(installed) => (t.(stage := Over(installed)), f.Forgiving(t.job))
    case Over(_) => (t, f)
  }

  function Next(s: State, e: Event): State {
    match e
    case Assign(j) => s.(tasks := s.tasks + [Task(j, Arrived)])
    case Step(n, good) =>
      if n < |s.tasks| then
        var (t, f) := StepTask(s.tasks[n], s.flags, good);
        State(s.tasks[n := t], f)
      else s
    case Revoke(j) => s.(flags := s.flags.Revoking(j))
    case Drain => s.(flags := s.flags.Draining())
  }

  function Run(es: seq<Event>): State {
    if es == [] then State([], Flags({}, {}, false)) else Next(Run(es[..|es| - 1]), es[|es| - 1])
  }

  /** The state when an event of a run is about to happen. */
  function At(es: seq<Event>, i: nat): State
    requires i < |es|
  {
    Run(es[..i])
  }

  /** This event is the given task's step out of the given stage. */
  predicate Leaves(es: seq<Event>, i: nat, n: nat, stage: Stage) {
    && i < |es| && es[i].Step? && es[i].task == n
    && n < |At(es, i).tasks| && At(es, i).tasks[n].stage == stage
  }

  // ---- What the flags remember

  /** At this event an assignment of this job, done with it, drops the job's revocation. */
  predicate ForgivesAt(es: seq<Event>, i: nat, j: nat)
    requires i < |es|
  {
    && es[i].Step? && es[i].task < |At(es, i).tasks|
    && At(es, i).tasks[es[i].task].job == j && At(es, i).tasks[es[i].task].stage.Released?
  }

  ghost predicate RevokedSince(es: seq<Event>, i: nat, j: nat) {
    i < |es| && es[i] == Revoke(j) && forall k | i < k < |es| :: !ForgivesAt(es, k, j)
  }

  /** A revocation of this job is outstanding. */
  ghost predicate Revoked(es: seq<Event>, j: nat) { exists i: nat :: RevokedSince(es, i, j) }

  lemma SameForgiving(es: seq<Event>, most: seq<Event>, i: nat, j: nat)
    requires most <= es && i < |most|
    ensures ForgivesAt(most, i, j) == ForgivesAt(es, i, j)
  {
    assert most[..i] == es[..i] && most[i] == es[i];
  }

  lemma RevokedSinceGrows(es: seq<Event>, most: seq<Event>, i: nat, j: nat)
    requires most <= es && |es| == |most| + 1 && i < |most|
    ensures RevokedSince(es, i, j) <==> RevokedSince(most, i, j) && !ForgivesAt(es, |most|, j)
  {
    forall k: nat | k < |most| ensures ForgivesAt(most, k, j) == ForgivesAt(es, k, j) {
      SameForgiving(es, most, k, j);
    }
  }

  /** A job is marked as revoked exactly when it was revoked and since then no assignment of it has ended:
   *  any one of them, not only the one that was meant.
   */
  lemma {:induction false} MarkedExactlyWhen(es: seq<Event>, j: nat)
    ensures j in Run(es).flags.revoked <==> Revoked(es, j)
  {
    if es != [] {
      var n := |es| - 1;
      var most := es[..n];
      MarkedExactlyWhen(most, j);
      forall i: nat | i < n ensures RevokedSince(es, i, j) <==> RevokedSince(most, i, j) && !ForgivesAt(es, n, j) {
        RevokedSinceGrows(es, most, i, j);
      }
      assert RevokedSince(es, n, j) <==> es[n] == Revoke(j);
      assert j in Run(es).flags.revoked <==>
        es[n] == Revoke(j) || (j in Run(most).flags.revoked && !ForgivesAt(es, n, j));
    }
  }

  /** At this event an assignment of this job takes it up, or lets go of it, or the job is revoked. */
  predicate TakesUpAt(es: seq<Event>, i: nat, j: nat)
    requires i < |es|
  {
    && es[i].Step? && es[i].task < |At(es, i).tasks|
    && At(es, i).tasks[es[i].task].job == j && At(es, i).tasks[es[i].task].stage == Admitted
  }

  predicate LetsGoAt(es: seq<Event>, i: nat, j: nat)
    requires i < |es|
  {
    || es[i] == Revoke(j)
    || (es[i].Step? && es[i].task < |At(es, i).tasks|
        && At(es, i).tasks[es[i].task].job == j && At(es, i).tasks[es[i].task].stage.Leaving?)
  }

  ghost predicate ClaimedSince(es: seq<Event>, i: nat, j: nat) {
    i < |es| && TakesUpAt(es, i, j) && forall k | i < k < |es| :: !LetsGoAt(es, k, j)
  }

  ghost predicate Claimed(es: seq<Event>, j: nat) { exists i: nat :: ClaimedSince(es, i, j) }

  lemma ClaimedSinceGrows(es: seq<Event>, most: seq<Event>, i: nat, j: nat)
    requires most <= es && |es| == |most| + 1 && i < |most|
    ensures ClaimedSince(es, i, j) <==> ClaimedSince(most, i, j) && !LetsGoAt(es, |most|, j)
  {
    forall k: nat | k < |most|
      ensures TakesUpAt(most, k, j) == TakesUpAt(es, k, j) && LetsGoAt(most, k, j) == LetsGoAt(es, k, j)
    {
      assert most[..k] == es[..k] && most[k] == es[k];
    }
  }

  /** An agent claims to be running a job exactly when an assignment of it was taken up, and since then none of it
   *  has ended and the job has not been revoked.
   */
  lemma {:induction false} ClaimedExactlyWhen(es: seq<Event>, j: nat)
    ensures j in Run(es).flags.running <==> Claimed(es, j)
  {
    if es != [] {
      var n := |es| - 1;
      var most := es[..n];
      ClaimedExactlyWhen(most, j);
      forall i: nat | i < n ensures ClaimedSince(es, i, j) <==> ClaimedSince(most, i, j) && !LetsGoAt(es, n, j) {
        ClaimedSinceGrows(es, most, i, j);
      }
      assert ClaimedSince(es, n, j) <==> TakesUpAt(es, n, j);
      assert j in Run(es).flags.running <==>
        TakesUpAt(es, n, j) || (j in Run(most).flags.running && !LetsGoAt(es, n, j));
    }
  }

  lemma {:induction false} DrainingExactlyWhen(es: seq<Event>)
    ensures Run(es).flags.draining <==> Drain in es
  {
    if es != [] {
      var n := |es| - 1;
      DrainingExactlyWhen(es[..n]);
      assert es == es[..n] + [es[n]];
    }
  }

  // ---- What an install has been through

  lemma LeavesStill(es: seq<Event>, most: seq<Event>, i: nat, n: nat, stage: Stage)
    requires most <= es && Leaves(most, i, n, stage)
    ensures Leaves(es, i, n, stage) && At(es, i) == At(most, i)
  {
    assert most[..i] == es[..i];
  }

  ghost predicate CameIn(es: seq<Event>, n: nat, i: nat) {
    Leaves(es, i, n, Arrived) && !At(es, i).flags.draining
  }

  ghost predicate PassedCheck(es: seq<Event>, n: nat, i: nat) {
    Leaves(es, i, n, Checking) && At(es, i).tasks[n].job !in At(es, i).flags.revoked
  }

  lemma {:induction false} OnItsWayCameIn(es: seq<Event>, n: nat)
    requires n < |Run(es).tasks| && Run(es).tasks[n].stage.OnItsWay()
    ensures exists i: nat :: CameIn(es, n, i)
  {
    if es != [] {
      var m := |es| - 1;
      var most := es[..m];
      if n < |Run(most).tasks| && Run(most).tasks[n].stage.OnItsWay() {
        OnItsWayCameIn(most, n);
        var i: nat :| CameIn(most, n, i);
        LeavesStill(es, most, i, n, Arrived);
        assert CameIn(es, n, i);
      } else {
        assert CameIn(es, n, m);
      }
    }
  }

  lemma {:induction false} CheckedPassed(es: seq<Event>, n: nat)
    requires n < |Run(es).tasks| && Run(es).tasks[n].stage.Checked()
    ensures exists i: nat :: PassedCheck(es, n, i)
  {
    if es != [] {
      var m := |es| - 1;
      var most := es[..m];
      if n < |Run(most).tasks| && Run(most).tasks[n].stage.Checked() {
        CheckedPassed(most, n);
        var i: nat :| PassedCheck(most, n, i);
        LeavesStill(es, most, i, n, Checking);
        assert PassedCheck(es, n, i);
      } else {
        assert PassedCheck(es, n, m);
      }
    }
  }

  /** However assignments, revocations and a drain interleave: an assignment that installs was taken on
   *  before any drain, and when it was about to ask for permission no revocation of its job was
   *  outstanding.
   */
  lemma InstallsAreNeitherDrainedNorRevoked(es: seq<Event>, n: nat)
    requires n < |Run(es).tasks| && Run(es).tasks[n].stage.Installed()
    ensures exists i: nat :: Leaves(es, i, n, Arrived) && Drain !in es[..i]
    ensures exists i: nat :: Leaves(es, i, n, Checking) && !Revoked(es[..i], At(es, i).tasks[n].job)
  {
    OnItsWayCameIn(es, n);
    var i: nat :| CameIn(es, n, i);
    DrainingExactlyWhen(es[..i]);
    CheckedPassed(es, n);
    var c: nat :| PassedCheck(es, n, c);
    MarkedExactlyWhen(es[..c], At(es, c).tasks[n].job);
  }

  lemma OneMore(es: seq<Event>, e: Event)
    ensures Run(es + [e]) == Next(Run(es), e)
  {
    assert (es + [e])[..|es|] == es;
  }

  /** An encode that passed is not installed exactly if a revocation of its job is outstanding, whichever
   *  attempt that was meant for.
   */
  lemma StoppedExactlyWhen(es: seq<Event>, n: nat, good: bool)
    requires n < |Run(es).tasks| && Run(es).tasks[n].stage == Checking
    ensures
      Run(es + [Step(n, good)]).tasks[n].stage == if Revoked(es, Run(es).tasks[n].job) then Leaving(false) else Asking
  {
    OneMore(es, Step(n, good));
    MarkedExactlyWhen(es, Run(es).tasks[n].job);
  }

  // ---- Two attempts of one job

  /** Several events after a state. */
  function Onward(s: State, es: seq<Event>): State
    decreases |es|
  {
    if es == [] then s else Onward(Next(s, es[0]), es[1..])
  }

  lemma {:induction false} OnwardIsARun(es: seq<Event>, more: seq<Event>)
    ensures Onward(Run(es), more) == Run(es + more)
    decreases |more|
  {
    if more == [] {
      assert es + more == es;
    } else {
      OneMore(es, more[0]);
      OnwardIsARun(es + [more[0]], more[1..]);
      assert es + more == es + [more[0]] + more[1..];
    }
  }

  /** One attempt is encoding; it is revoked; the job comes again and its encode passes. */
  function RevokedThenGivenAgain(j: nat): seq<Event> {
    [Assign(j), Step(0, true), Step(0, true), Revoke(j), Assign(j), Step(1, true), Step(1, true), Step(1, true),
     Step(1, true)]
  }

  /** A revocation stops the attempt that comes after it, if the one it was meant for is still at work. */
  lemma ARevocationStopsTheNextAttempt(j: nat)
    ensures
      var s := Run(RevokedThenGivenAgain(j));
      |s.tasks| == 2 && s.tasks[1] == Task(j, Leaving(false))
  {
    var es := RevokedThenGivenAgain(j);
    OnwardIsARun([], es);
    assert [] + es == es && es[4..][4..] == es[8..] && es[8..][1..] == [];
    var s2 := State([Task(j, Admitted)], Flags({}, {}, false));
    var s4 := State([Task(j, Encoding)], Flags({}, {j}, false));
    var s7 := State([Task(j, Encoding), Task(j, Encoding)], Flags({j}, {j}, false));
    assert Next(Next(Run([]), es[0]), es[1]) == s2;
    assert Next(Next(s2, es[2]), es[3]) == s4;
    FourSteps(Run([]), es);
    assert Next(Next(Next(s4, es[4]), es[5]), es[6]) == s7;
    FourSteps(s4, es[4..]);
    assert Onward(Run([]), es) == Onward(Next(s7, es[7]), es[8..]);
    assert Onward(Next(s7, es[7]), es[8..]) == Onward(Next(Next(s7, es[7]), es[8]), []);
  }

  lemma FourSteps(s: State, es: seq<Event>)
    requires |es| >= 4
    ensures Onward(s, es) == Onward(Next(Next(Next(Next(s, es[0]), es[1]), es[2]), es[3]), es[4..])
  {
    assert es[1..][1..] == es[2..] && es[2..][1..] == es[3..] && es[3..][1..] == es[4..];
    assert Onward(s, es) == Onward(Next(s, es[0]), es[1..]);
    assert Onward(Next(s, es[0]), es[1..]) == Onward(Next(Next(s, es[0]), es[1]), es[2..]);
  }

  /** Two attempts of a job are encoding; it is revoked; one of them fails and ends; the other passes. */
  function RevokedThenOneEnds(j: nat): seq<Event> {
    [Assign(j), Step(0, true), Step(0, true), Assign(j), Step(1, true), Step(1, true), Revoke(j), Step(0, false),
     Step(0, true), Step(0, true), Step(1, true), Step(1, true), Step(1, true)]
  }

  /** The end of one attempt drops the revocation of the other: it goes on to install. */
  lemma TheEndOfAnAttemptDropsTheRevocation(j: nat)
    ensures
      var s := Run(RevokedThenOneEnds(j));
      |s.tasks| == 2 && s.tasks[1] == Task(j, Leaving(true))
  {
    var es := RevokedThenOneEnds(j);
    OnwardIsARun([], es);
    assert [] + es == es && es[4..][4..] == es[8..] && |es[8..]| == 5;
    var s4 := State([Task(j, Encoding), Task(j, Arrived)], Flags({j}, {}, false));
    var s8 := State([Task(j, Leaving(false)), Task(j, Encoding)], Flags({}, {j}, false));
    assert Next(Next(Next(Next(Run([]), es[0]), es[1]), es[2]), es[3]) == s4;
    FourSteps(Run([]), es);
    assert Next(Next(Next(Next(s4, es[4]), es[5]), es[6]), es[7]) == s8;
    FourSteps(s4, es[4..]);
    TheOtherGoesOn(j, es[8..]);
  }

  lemma TheOtherGoesOn(j: nat, es: seq<Event>)
    requires es == [Step(0, true), Step(0, true), Step(1, true), Step(1, true), Step(1, true)]
    ensures
      var s8 := State([Task(j, Leaving(false)), Task(j, Encoding)], Flags({}, {j}, false));
      Onward(s8, es) == State([Task(j, Over(false)), Task(j, Leaving(true))], Flags({}, {}, false))
  {
    var s8 := State([Task(j, Leaving(false)), Task(j, Encoding)], Flags({}, {j}, false));
    var s12 := State([Task(j, Over(false)), Task(j, Asking)], Flags({}, {}, false));
    assert Next(Next(Next(Next(s8, es[0]), es[1]), es[2]), es[3]) == s12;
    FourSteps(s8, es);
    assert es[4..] == [es[4]] && es[4..][1..] == [];
    assert Onward(s12, es[4..]) == Onward(Next(s12, es[4]), []);
  }
}
