/** Jobs: their classes, their states, and the edges between states. */
module Jobs {

  type JobId = string

  type AgentId = string

  datatype JobClass = Audio | VideoGpu | VideoCpu | Probe | Verify

  datatype SizeBucket = Small | Medium | Large

  datatype JobState =
    | Pending | Blocked | Eligible | Assigned | Running | Verifying | Committing
    | Retrying | Succeeded | Failed | Cancelled | DeadLettered | NeedsOperator
  {
    predicate IsTerminal() {
      this in {Succeeded, Failed, Cancelled, DeadLettered, NeedsOperator}
    }

    /** Whether a job in this state occupies a slot on an agent. */
    predicate HoldsCapacity() {
      this in {Assigned, Running, Verifying, Committing}
    }

    /** Waiting to be handed out. */
    predicate IsQueued() {
      this in {Pending, Blocked, Eligible}
    }
  }

  predicate CanTransition(from: JobState, to: JobState) {
    !from.IsTerminal() &&
    match from
    case Pending => to in {Cancelled, Blocked, Eligible}
    case Blocked => to in {Cancelled, Eligible}
    case Eligible => to in {Cancelled, Blocked, Assigned}
    case Assigned => to in {Cancelled, Running, Retrying, Failed}
    case Running => to in {Cancelled, Verifying, Retrying, Failed}
    case Verifying => to in {Cancelled, Committing, Retrying, Failed}
    case Committing => to in {Cancelled, NeedsOperator, Succeeded, Retrying, Failed}
    case Retrying => to in {Cancelled, Eligible, Blocked, DeadLettered, Failed}
    case _ => false
  }

  /** Where each state can be entered from: anything that has not ended can be cancelled; what an agent holds, or is
   *  between attempts, can fail; only what it holds goes back for another attempt; and work moves forward one step
   *  at a time.
   */
  lemma EachStateIsEnteredFrom(from: JobState)
    ensures CanTransition(from, Cancelled) <==> !from.IsTerminal()
    ensures CanTransition(from, Failed) <==> from.HoldsCapacity() || from == Retrying
    ensures CanTransition(from, Retrying) <==> from.HoldsCapacity()
    ensures CanTransition(from, Eligible) <==> from in {Pending, Blocked, Retrying}
    ensures CanTransition(from, Blocked) <==> from in {Pending, Eligible, Retrying}
    ensures CanTransition(from, Assigned) <==> from == Eligible
    ensures CanTransition(from, Running) <==> from == Assigned
    ensures CanTransition(from, Verifying) <==> from == Running
    ensures CanTransition(from, Committing) <==> from == Verifying
    ensures CanTransition(from, Succeeded) <==> from == Committing
    ensures CanTransition(from, NeedsOperator) <==> from == Committing
    ensures CanTransition(from, DeadLettered) <==> from == Retrying
    ensures !CanTransition(from, Pending)
  {
  }

  /** A slot is taken by one edge only, and no path leads back to a job's commit window. */
  lemma OneEdgeTakesASlot(from: JobState, to: JobState)
    requires CanTransition(from, to)
    ensures !from.HoldsCapacity() && to.HoldsCapacity() ==> from == Eligible && to == Assigned
    ensures to == Committing ==> from == Verifying
  {
  }
}
