/** A stop signal that no waiter can miss.
 *
 *  `stop` stores a flag and then wakes whoever is registered; `cancelled` registers, then reads the flag,
 *  and parks only if it was not set.  Any number of both run at once, one atomic action at a time.
 */
module Shutdown {

  datatype WaiterAt = Fresh | Registered | Checked | Parked | Returned

  datatype Waiter = Waiter(at: WaiterAt, notified: bool)

  datatype StopperAt = Stored | Finished

  /** Whether a waiter registers before it reads the flag, as it does, or after. */
  datatype Order = RegisterThenCheck | CheckThenRegister

  datatype State = State(stopped: bool, waiters: map<nat, Waiter>, stoppers: map<nat, StopperAt>)

  /** The next action of one task; a task not seen before is at its beginning. */
  datatype Action = StopActs(s: nat) | WaiterActs(w: nat)

  function At(st: State, w: nat): Waiter { if w in st.waiters then st.waiters[w] else Waiter(Fresh, false) }

  /** Waking reaches exactly the waiters that are registered at that instant, and leaves nothing behind. */
  function Woken(waiters: map<nat, Waiter>): map<nat, Waiter> {
    map w | w in waiters :: if waiters[w].at in {Registered, Parked} then waiters[w].(notified := true) else waiters[w]
  }

  function Advanced(w: Waiter, stopped: bool, order: Order): Waiter {
    match w.at
    case Fresh =>
      if order == RegisterThenCheck then w.(at := Registered)
      else w.(at := if stopped then Returned else Checked)
    case Registered => w.(at := if stopped then Returned else Parked)
    case Checked => w.(at := Parked)
    case Parked => if w.notified then w.(at := Returned) else w
    case Returned => w
  }

  function Do(st: State, a: Action, order: Order): State {
    match a
    case StopActs(s) =>
      if s !in st.stoppers then st.(stopped := true, stoppers := st.stoppers[s := Stored])
      else if st.stoppers[s] == Stored then
        st.(waiters := Woken(st.waiters), stoppers := st.stoppers[s := Finished])
      else st
    case WaiterActs(w) => st.(waiters := st.waiters[w := Advanced(At(st, w), st.stopped, order)])
  }

  function Run(st: State, actions: seq<Action>, order: Order): State {
    if actions == [] then st
    else Do(Run(st, actions[..|actions| - 1], order), actions[|actions| - 1], order)
  }

  const START: State := State(false, map[], map[])

  predicate SomeStopFinished(st: State) { exists s | s in st.stoppers :: st.stoppers[s] == Finished }

  predicate Stuck(st: State, w: nat) { w in st.waiters && st.waiters[w] == Waiter(Parked, false) }

  ghost predicate Inv(st: State) {
    && (st.stoppers != map[] ==> st.stopped)
    && (SomeStopFinished(st) ==> forall w :: !Stuck(st, w))
    && forall w | w in st.waiters :: st.waiters[w].at != Checked
  }

  lemma {:induction false} RunKeepsInv(actions: seq<Action>)
    ensures Inv(Run(START, actions, RegisterThenCheck))
  {
    if actions != [] {
      var n := |actions| - 1;
      RunKeepsInv(actions[..n]);
      var st := Run(START, actions[..n], RegisterThenCheck);
      var t := Do(st, actions[n], RegisterThenCheck);
      if SomeStopFinished(t) {
        var s :| s in t.stoppers && t.stoppers[s] == Finished;
        if actions[n].StopActs? && s == actions[n].s && s in st.stoppers && st.stoppers[s] == Stored {
          assert forall w :: !Stuck(t, w);
        } else {
          assert s in st.stoppers && st.stoppers[s] == Finished;
          assert SomeStopFinished(st) && st.stopped;
          forall w ensures !Stuck(t, w) {
            assert !Stuck(st, w);
          }
        }
      }
    }
  }

  /** In every interleaving, once any stop has finished nobody is parked un-notified. */
  lemma NoLostWakeup(actions: seq<Action>, w: nat)
    requires SomeStopFinished(Run(START, actions, RegisterThenCheck))
    ensures !Stuck(Run(START, actions, RegisterThenCheck), w)
  {
    RunKeepsInv(actions);
  }

  /** And every waiter then returns within three of its own actions, whoever else acts in between. */
  lemma EveryWaiterReturns(actions: seq<Action>, more: seq<Action>, w: nat)
    requires SomeStopFinished(Run(START, actions, RegisterThenCheck))
    requires OwnActions(more, w) >= 3
    ensures At(Run(START, actions + more, RegisterThenCheck), w).at == Returned
  {
    MovesTowardsReturn(actions, more, w);
  }

  function OwnActions(actions: seq<Action>, w: nat): nat {
    if actions == [] then 0
    else OwnActions(actions[..|actions| - 1], w) + if actions[|actions| - 1] == WaiterActs(w) then 1 else 0
  }

  /** How many actions a waiter still has before it returns, at most, once the flag is set. */
  function Left(w: Waiter): nat {
    match w.at
    case Fresh => 2
    case Registered => 1
    case Checked => 2
    case Parked => 1
    case Returned => 0
  }

  lemma {:induction false} MovesTowardsReturn(actions: seq<Action>, more: seq<Action>, w: nat)
    requires SomeStopFinished(Run(START, actions, RegisterThenCheck))
    ensures
      var st := Run(START, actions + more, RegisterThenCheck);
      SomeStopFinished(st) && (Left(At(st, w)) == 0 || Left(At(st, w)) + OwnActions(more, w) <= 2)
  {
    RunKeepsInv(actions + more);
    if more == [] {
      assert actions + more == actions;
    } else {
      var n := |more| - 1;
      MovesTowardsReturn(actions, more[..n], w);
      assert (actions + more)[..|actions + more| - 1] == actions + more[..n];
      var st := Run(START, actions + more[..n], RegisterThenCheck);
      RunKeepsInv(actions + more[..n]);
      var s :| s in st.stoppers && st.stoppers[s] == Finished;
      var t := Do(st, more[n], RegisterThenCheck);
      assert s in t.stoppers && t.stoppers[s] == Finished;
      assert !Stuck(st, w);
    }
  }

  /** With the flag read before registering, a stop that lands in between leaves a waiter parked for good. */
  lemma CheckingFirstLosesTheWakeup(s: nat, w: nat)
    ensures
      var actions := [WaiterActs(w), StopActs(s), StopActs(s), WaiterActs(w)];
      var st := Run(START, actions, CheckThenRegister);
      SomeStopFinished(st) && Stuck(st, w) && Do(st, WaiterActs(w), CheckThenRegister) == st
  {
    var a := [WaiterActs(w), StopActs(s), StopActs(s), WaiterActs(w)];
    assert a[..3] == [WaiterActs(w), StopActs(s), StopActs(s)];
    assert a[..3][..2] == [WaiterActs(w), StopActs(s)];
    assert a[..3][..2][..1] == [WaiterActs(w)];
    assert a[..3][..2][..1][..0] == [];
    var s1 := Do(START, a[0], CheckThenRegister);
    var s2 := Do(s1, a[1], CheckThenRegister);
    var s3 := Do(s2, a[2], CheckThenRegister);
    var s4 := Do(s3, a[3], CheckThenRegister);
    assert Run(START, a[..3][..2][..1], CheckThenRegister) == s1;
    assert Run(START, a[..3][..2], CheckThenRegister) == s2;
    assert Run(START, a[..3], CheckThenRegister) == s3;
    assert s in s4.stoppers && s4.stoppers[s] == Finished;
    assert Do(s4, WaiterActs(w), CheckThenRegister).waiters == s4.waiters;
  }
}
