/** Retrying, giving up, and taking a bad agent out of rotation. */
module Hardening {
  import opened Jobs

  const RETRY_BASE_SECONDS: int := 30
  const RETRY_MAX_SECONDS: int := 3600
  const QUARANTINE_AFTER: nat := 5

  datatype FailureClass = Transient | Permanent | CapabilityDrift

  datatype RetryDecision =
    | RetryAfter(seconds: int, nextAttempt: int)
    | DeadLetter
    | Stop

  function Clamp(x: int, lo: int, hi: int): int
    requires lo <= hi
  {
    if x < lo then lo else if x > hi then hi else x
  }

  function Shifted(bits: nat): int {
    if bits == 0 then 1 else 2 * Shifted(bits - 1)
  }

  /** What to do about the attempt that just failed, counting from zero. */
  function DecideRetry(class_: FailureClass, attempt: int, maxAttempts: int): RetryDecision {
    if class_ == FailureClass.Permanent then Stop
    else if attempt + 1 >= maxAttempts then DeadLetter
    else
      var delay := RETRY_BASE_SECONDS * Shifted(Clamp(attempt, 0, 16));
      RetryAfter(if delay < RETRY_MAX_SECONDS then delay else RETRY_MAX_SECONDS, attempt + 1)
  }

  lemma {:induction false} ShiftedGrows(i: nat, k: nat)
    requires i <= k
    ensures 1 <= Shifted(i) <= Shifted(k)
  {
    if i < k {
      ShiftedGrows(i, k - 1);
    } else if k > 0 {
      ShiftedGrows(i - 1, k - 1);
    }
  }

  /** A job stops exactly for a failure that another attempt cannot mend, and is given up on exactly when it has no
   *  attempt left for one that it might.
   */
  lemma RetriesEndExactlyWhen(class_: FailureClass, attempt: int, maxAttempts: int)
    ensures DecideRetry(class_, attempt, maxAttempts).Stop? <==> class_ == FailureClass.Permanent
    ensures DecideRetry(class_, attempt, maxAttempts).DeadLetter? <==>
      class_ in {Transient, CapabilityDrift} && attempt >= maxAttempts - 1
  {
  }

  /** A delay is between half a minute and an hour. */
  lemma DelaysAreBounded(class_: FailureClass, attempt: int, maxAttempts: int)
    requires DecideRetry(class_, attempt, maxAttempts).RetryAfter?
    ensures RETRY_BASE_SECONDS <= DecideRetry(class_, attempt, maxAttempts).seconds <= RETRY_MAX_SECONDS
  {
    ShiftedGrows(0, Clamp(attempt, 0, 16));
  }

  /** The first wait is half a minute, and each is twice the one before it until an hour is reached. */
  lemma DelaysDouble(class_: FailureClass, attempt: nat, maxAttempts: int)
    requires DecideRetry(class_, attempt + 1, maxAttempts).RetryAfter?
    ensures DecideRetry(class_, attempt, maxAttempts).RetryAfter?
    ensures
      var d, e := DecideRetry(class_, attempt, maxAttempts), DecideRetry(class_, attempt + 1, maxAttempts);
      && (attempt == 0 ==> d.seconds == 30)
      && e.seconds == (if 2 * d.seconds < 3600 then 2 * d.seconds else 3600)
      && d.nextAttempt == attempt + 1 && e.nextAttempt == attempt + 2
  {
    assert Shifted(0) == 1 && Shifted(1) == 2 && Shifted(2) == 4;
    assert Shifted(3) == 8 && Shifted(4) == 16 && Shifted(5) == 32 && Shifted(6) == 64 && Shifted(7) == 128;
    if attempt >= 7 { ShiftedGrows(7, Clamp(attempt, 0, 16)); }
  }

  /** A later attempt never waits less, and the budget only ever runs out once. */
  lemma DelaysNeverShrink(class_: FailureClass, attempt: int, later: int, maxAttempts: int)
    requires attempt <= later
    ensures
      var d, e := DecideRetry(class_, attempt, maxAttempts), DecideRetry(class_, later, maxAttempts);
      && (d.RetryAfter? && e.RetryAfter? ==> d.seconds <= e.seconds)
      && (d.DeadLetter? ==> e.DeadLetter?)
  {
    ShiftedGrows(Clamp(attempt, 0, 16), Clamp(later, 0, 16));
  }

  /** One thing that happened to one agent. */
  datatype Event = Success | Failure | Cleared

  /** Failures at the end of a history, with nothing between them. */
  function Streak(history: seq<Event>): nat {
    if history == [] || history[|history| - 1] != Failure then 0
    else 1 + Streak(history[..|history| - 1])
  }

  /** Whether a history has at some point since it was last cleared reached the streak that quarantines. */
  predicate OutOfRotation(history: seq<Event>) {
    if history == [] || history[|history| - 1] == Cleared then false
    else Streak(history) >= QUARANTINE_AFTER || OutOfRotation(history[..|history| - 1])
  }

  lemma {:induction false} StreakIsTheTrailingFailures(history: seq<Event>)
    ensures Streak(history) <= |history|
    ensures forall i | |history| - Streak(history) <= i < |history| :: history[i] == Failure
    ensures Streak(history) < |history| ==> history[|history| - 1 - Streak(history)] != Failure
  {
    if history != [] && history[|history| - 1] == Failure {
      StreakIsTheTrailingFailures(history[..|history| - 1]);
    }
  }

  /** Five failures one after another from here on, and nobody has cleared the agent after them. */
  ghost predicate FiveInARow(history: seq<Event>, i: nat) {
    && i + 5 <= |history|
    && (forall k | i <= k < i + 5 :: history[k] == Failure)
    && Cleared !in history[i + 5..]
  }

  lemma FiveInARowGrows(history: seq<Event>, e: Event, i: nat)
    requires i + QUARANTINE_AFTER <= |history|
    ensures FiveInARow(history + [e], i) <==> FiveInARow(history, i) && e != Cleared
  {
    var rest := history[i + QUARANTINE_AFTER..];
    assert (history + [e])[i + QUARANTINE_AFTER..] == rest + [e];
    assert forall k | 0 <= k < |history| :: (history + [e])[k] == history[k];
    assert Cleared in rest + [e] <==> Cleared in rest || e == Cleared;
  }

  lemma StreakMakesFive(history: seq<Event>)
    requires |history| >= QUARANTINE_AFTER
    ensures Streak(history) >= QUARANTINE_AFTER <==> FiveInARow(history, |history| - QUARANTINE_AFTER)
  {
    StreakIsTheTrailingFailures(history);
    assert history[|history| - QUARANTINE_AFTER + QUARANTINE_AFTER..] == [];
  }

  /** An agent is out of rotation if and only if it failed five times in a row at some point and has not been
   *  cleared since, whatever else has happened before, between and after.
   */
  lemma {:induction false} OutOfRotationMeans(history: seq<Event>)
    ensures OutOfRotation(history) <==> exists i: nat :: FiveInARow(history, i)
  {
    if history != [] {
      var n := |history| - 1;
      var most := history[..n];
      assert history == most + [history[n]];
      OutOfRotationMeans(most);
      StreakIsTheTrailingFailures(history);
      if |history| >= QUARANTINE_AFTER { StreakMakesFive(history); }
      forall i: nat | i + QUARANTINE_AFTER <= n
        ensures FiveInARow(history, i) <==> FiveInARow(most, i) && history[n] != Cleared
      {
        FiveInARowGrows(most, history[n], i);
      }
      if OutOfRotation(history) && Streak(history) < QUARANTINE_AFTER {
        var i: nat :| FiveInARow(most, i);
        assert FiveInARow(history, i);
      }
      forall i: nat | FiveInARow(history, i) ensures OutOfRotation(history) {
        if i + QUARANTINE_AFTER <= n { assert FiveInARow(most, i); }
      }
    }
  }

  lemma {:induction false} StreakStopsAtClearing(past: seq<Event>, more: seq<Event>)
    ensures Streak(past + [Cleared] + more) == Streak(more)
  {
    if more == [] {
      assert past + [Cleared] + more == past + [Cleared];
    } else {
      var all := past + [Cleared] + more;
      assert all[..|all| - 1] == past + [Cleared] + more[..|more| - 1];
      StreakStopsAtClearing(past, more[..|more| - 1]);
    }
  }

  /** Clearing an agent makes its past not count: what takes it out of rotation again is what would take out
   *  an agent that has just joined.
   */
  lemma {:induction false} ClearedStartsAfresh(past: seq<Event>, more: seq<Event>)
    ensures OutOfRotation(past + [Cleared] + more) <==> OutOfRotation(more)
  {
    if more == [] {
      assert past + [Cleared] + more == past + [Cleared];
    } else {
      var all := past + [Cleared] + more;
      assert all[..|all| - 1] == past + [Cleared] + more[..|more| - 1];
      ClearedStartsAfresh(past, more[..|more| - 1]);
      StreakStopsAtClearing(past, more);
    }
  }

  /** Nothing but an operator returns an agent to rotation. */
  lemma {:induction false} OnlyClearingReturnsAnAgent(history: seq<Event>, more: seq<Event>)
    requires OutOfRotation(history) && Cleared !in more
    ensures OutOfRotation(history + more)
  {
    if more == [] {
      assert history + more == history;
    } else {
      var n := |more| - 1;
      OnlyClearingReturnsAnAgent(history, more[..n]);
      assert (history + more)[..|history + more| - 1] == history + more[..n];
      assert (history + more)[|history + more| - 1] == more[n] && more[n] in more;
    }
  }

  class AgentHealth {
    var consecutiveFailures: map<AgentId, nat>
    var quarantined: set<AgentId>
    ghost var history: map<AgentId, seq<Event>>

    ghost function Past(a: AgentId): seq<Event>
      reads this
    {
      if a in history then history[a] else []
    }

    /** The counters say what the history says. */
    ghost predicate Valid()
      reads this
    {
      forall a: AgentId ::
        && Streak(Past(a)) == (if a in consecutiveFailures then consecutiveFailures[a] else 0)
        && (OutOfRotation(Past(a)) <==> a in quarantined)
    }

    constructor ()
      ensures Valid() && history == map[]
    {
      consecutiveFailures, quarantined, history := map[], {}, map[];
    }

    method RecordSuccess(a: AgentId)
      requires Valid()
      modifies this
      ensures Valid() && history == old(history)[a := old(Past(a)) + [Success]]
    {
      consecutiveFailures := consecutiveFailures - {a};
      ghost var past := Past(a);
      history := history[a := past + [Success]];
      assert (past + [Success])[..|past|] == past;
    }

    /** Whether this failure is the one that takes the agent out of rotation. */
    method RecordFailure(a: AgentId) returns (now: bool)
      requires Valid()
      modifies this
      ensures Valid() && history == old(history)[a := old(Past(a)) + [Failure]]
      ensures now <==> OutOfRotation(Past(a)) && !OutOfRotation(old(Past(a)))
    {
      ghost var past := Past(a);
      assert (past + [Failure])[..|past|] == past;
      var n := (if a in consecutiveFailures then consecutiveFailures[a] else 0) + 1;
      consecutiveFailures := consecutiveFailures[a := n];
      history := history[a := past + [Failure]];
      now := n >= QUARANTINE_AFTER && a !in quarantined;
      if now { quarantined := quarantined + {a}; }
    }

    method ClearQuarantine(a: AgentId)
      requires Valid()
      modifies this
      ensures Valid() && history == old(history)[a := old(Past(a)) + [Cleared]]
      ensures a !in quarantined && a !in consecutiveFailures
    {
      quarantined, consecutiveFailures := quarantined - {a}, consecutiveFailures - {a};
      history := history[a := Past(a) + [Cleared]];
    }
  }
}
