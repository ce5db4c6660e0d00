/** Who is allowed to run what, and how many at once. */
module Capacity {
  import opened Jobs
  import opened Optional

  /** A class without a limit of its own is limited by the widest 32-bit number. */
  const NO_CLASS_LIMIT: nat := 0xFFFF_FFFF

  datatype AgentLimits = AgentLimits(totalSlots: nat, perClass: map<JobClass, nat>, largeSlots: nat) {
    function ClassLimit(class_: JobClass): nat {
      if class_ in perClass then perClass[class_] else NO_CLASS_LIMIT
    }
  }

  datatype Grant = Grant(class_: JobClass, size: SizeBucket)

  datatype Refusal = UnknownAgent | TotalSlots | ClassSlots | LargeSlots | AlreadyHeld

  datatype Admission = Admitted | Refused(why: Refusal)

  type Holdings = map<JobId, Grant>

  /** The value of a ledger: each agent's limits, and what each job holds there. */
  datatype Ledger = Ledger(limits: map<AgentId, AgentLimits>, held: map<AgentId, Holdings>) {
    function At(a: AgentId): Holdings { if a in held then held[a] else map[] }

    predicate HeldAnywhere(j: JobId) { exists a | a in held :: j in held[a] }
  }

  function OfClass(h: Holdings, c: JobClass): set<JobId> { set j | j in h && h[j].class_ == c }

  function OfLarge(h: Holdings): set<JobId> { set j | j in h && h[j].size == Large }

  /** The first thing that stands in the way of one more grant. */
  function Obstacle(l: Ledger, a: AgentId, j: JobId, g: Grant): Option<Refusal> {
    if a !in l.limits then Some(UnknownAgent)
    else if l.HeldAnywhere(j) then Some(AlreadyHeld)
    else if |l.At(a)| >= l.limits[a].totalSlots then Some(TotalSlots)
    else if |OfClass(l.At(a), g.class_)| >= l.limits[a].ClassLimit(g.class_) then Some(ClassSlots)
    else if g.size == Large && |OfLarge(l.At(a))| >= l.limits[a].largeSlots then Some(LargeSlots)
    else None
  }

  /** There is room for one more grant: the agent is known, nobody holds the job, and a slot is free of all that
   *  the agent has, of those for the class, and, for a large file, of those for large files.
   */
  predicate HasRoom(l: Ledger, a: AgentId, j: JobId, g: Grant) {
    && a in l.limits && (forall b | b in l.held :: j !in l.held[b])
    && var mine, lim := if a in l.held then l.held[a] else map[], l.limits[a];
       && |mine| < lim.totalSlots
       && |set k | k in mine && mine[k].class_ == g.class_| <
            (if g.class_ in lim.perClass then lim.perClass[g.class_] else NO_CLASS_LIMIT)
       && (g.size == Large ==> |set k | k in mine && mine[k].size == Large| < lim.largeSlots)
  }

  /** A grant is refused exactly if there is no room for it. */
  lemma RefusedExactlyWithoutRoom(l: Ledger, a: AgentId, j: JobId, g: Grant)
    ensures Obstacle(l, a, j, g) == None <==> HasRoom(l, a, j, g)
  {
  }

  /** The reason given is the first that holds. */
  lemma TheReasonIsTheFirst(l: Ledger, a: AgentId, j: JobId, g: Grant)
    ensures Obstacle(l, a, j, g) == Some(UnknownAgent) <==> a !in l.limits
    ensures Obstacle(l, a, j, g) == Some(AlreadyHeld) <==> a in l.limits && exists b | b in l.held :: j in l.held[b]
    ensures a in l.limits && (forall b | b in l.held :: j !in l.held[b]) ==>
      var mine, lim := l.At(a), l.limits[a];
      var full := |mine| >= lim.totalSlots;
      var classFull := |set k | k in mine && mine[k].class_ == g.class_| >= lim.ClassLimit(g.class_);
      && (Obstacle(l, a, j, g) == Some(TotalSlots) <==> full)
      && (Obstacle(l, a, j, g) == Some(ClassSlots) <==> !full && classFull)
      && (Obstacle(l, a, j, g) == Some(LargeSlots) <==>
            && !full && !classFull && g.size == Large
            && |set k | k in mine && mine[k].size == Large| >= lim.largeSlots)
  {
  }

  function Granted(l: Ledger, a: AgentId, j: JobId, g: Grant): Ledger {
    l.(held := l.held[a := l.At(a)[j := g]])
  }

  /** The ledger once a job holds nothing anywhere. */
  function Released(l: Ledger, j: JobId): Ledger {
    l.(held := map a | a in l.held :: l.held[a] - {j})
  }

  /** Limits are set without evicting anything, and an agent becomes known by having them. */
  function Limited(l: Ledger, a: AgentId, lim: AgentLimits): Ledger {
    Ledger(l.limits[a := lim], if a in l.held then l.held else l.held[a := map[]])
  }

  /** An agent that is gone holds nothing. */
  function Forgotten(l: Ledger, a: AgentId): Ledger { Ledger(l.limits - {a}, l.held - {a}) }

  /** The limits hold of one agent's holdings. */
  predicate Within(lim: AgentLimits, h: Holdings) {
    && |h| <= lim.totalSlots
    && (forall c: JobClass :: |OfClass(h, c)| <= lim.ClassLimit(c))
    && |OfLarge(h)| <= lim.largeSlots
  }

  ghost predicate WithinLimits(l: Ledger) {
    forall a | a in l.limits :: Within(l.limits[a], l.At(a))
  }

  ghost predicate OneHolderEach(l: Ledger) {
    forall a, b, j | a in l.held && b in l.held && j in l.held[a] && j in l.held[b] :: a == b
  }

  /** A ledger that has only gained grants. */
  ghost predicate Grown(l: Ledger, m: Ledger) {
    && l.limits == m.limits
    && l.held.Keys <= m.held.Keys
    && forall a | a in l.held.Keys :: Included(l.held[a], m.held[a])
  }

  /** Every grant of the first holdings is in the second. */
  ghost predicate Included(h: Holdings, k: Holdings) {
    h.Keys <= k.Keys && forall j | j in h.Keys :: k[j] == h[j]
  }

  lemma SubsetHoldsNoMore(h: Holdings, k: Holdings, c: JobClass)
    requires Included(h, k)
    ensures |h| <= |k| && |OfLarge(h)| <= |OfLarge(k)|
    ensures |OfClass(h, c)| <= |OfClass(k, c)|
  {
    SubsetCardinality(h.Keys, k.Keys);
    forall j | j in OfLarge(h) ensures j in OfLarge(k) { assert j in h.Keys; }
    SubsetCardinality(OfLarge(h), OfLarge(k));
    forall j | j in OfClass(h, c) ensures j in OfClass(k, c) { assert j in h.Keys; }
    SubsetCardinality(OfClass(h, c), OfClass(k, c));
  }

  lemma {:induction false} SubsetCardinality<T>(s: set<T>, t: set<T>)
    requires s <= t
    ensures |s| <= |t|
  {
    if s != {} {
      var x :| x in s;
      SubsetCardinality(s - {x}, t - {x});
    }
  }

  /** One more grant that met no obstacle stays within an agent's limits. */
  lemma OneMoreIsWithin(lim: AgentLimits, h: Holdings, j: JobId, g: Grant)
    requires Within(lim, h) && j !in h
    requires |h| < lim.totalSlots && |OfClass(h, g.class_)| < lim.ClassLimit(g.class_)
    requires g.size == Large ==> |OfLarge(h)| < lim.largeSlots
    ensures Within(lim, h[j := g])
  {
    var k := h[j := g];
    assert k.Keys == h.Keys + {j};
    OneMoreLarge(h, j, g);
    forall c: JobClass ensures |OfClass(k, c)| <= lim.ClassLimit(c) {
      OneMoreOfClass(h, j, g, c);
    }
  }

  lemma OneMoreLarge(h: Holdings, j: JobId, g: Grant)
    requires j !in h
    ensures |OfLarge(h[j := g])| == |OfLarge(h)| + if g.size == Large then 1 else 0
  {
    var k := h[j := g];
    if g.size == Large {
      assert OfLarge(k) == OfLarge(h) + {j};
    } else {
      assert OfLarge(k) == OfLarge(h);
    }
  }

  lemma OneMoreOfClass(h: Holdings, j: JobId, g: Grant, c: JobClass)
    requires j !in h
    ensures |OfClass(h[j := g], c)| == |OfClass(h, c)| + if g.class_ == c then 1 else 0
  {
    var k := h[j := g];
    if g.class_ == c {
      assert OfClass(k, c) == OfClass(h, c) + {j};
    } else {
      assert OfClass(k, c) == OfClass(h, c);
    }
  }

  /** A grant that was given keeps every limit, and gives no job a second holder. */
  lemma AcquireKeepsLimits(l: Ledger, a: AgentId, j: JobId, g: Grant)
    requires WithinLimits(l) && OneHolderEach(l) && HasRoom(l, a, j, g)
    ensures WithinLimits(Granted(l, a, j, g)) && OneHolderEach(Granted(l, a, j, g))
  {
    RefusedExactlyWithoutRoom(l, a, j, g);
    var m := Granted(l, a, j, g);
    forall b | b in m.limits ensures Within(m.limits[b], m.At(b)) {
      if b == a {
        assert j !in l.At(a);
        OneMoreIsWithin(l.limits[a], l.At(a), j, g);
      } else {
        assert m.At(b) == l.At(b) && Within(l.limits[b], l.At(b));
      }
    }
  }

  lemma GrownIsTransitive(l: Ledger, m: Ledger, n: Ledger)
    requires Grown(l, m) && Grown(m, n)
    ensures Grown(l, n)
  {
    forall a | a in l.held.Keys ensures Included(l.held[a], n.held[a]) {
      assert Included(l.held[a], m.held[a]) && Included(m.held[a], n.held[a]);
    }
  }

  /** A refusal stays a refusal while the ledger only grows. */
  lemma RefusalPersists(l: Ledger, m: Ledger, a: AgentId, j: JobId, g: Grant)
    requires Grown(l, m) && !HasRoom(l, a, j, g)
    ensures !HasRoom(m, a, j, g)
  {
    RefusedExactlyWithoutRoom(l, a, j, g);
    RefusedExactlyWithoutRoom(m, a, j, g);
    if a in l.limits {
      if l.HeldAnywhere(j) {
        var b :| b in l.held && j in l.held[b];
        assert Included(l.held[b], m.held[b]);
        assert m.HeldAnywhere(j);
      } else {
        assert Included(l.At(a), m.At(a));
        SubsetHoldsNoMore(l.At(a), m.At(a), g.class_);
      }
    }
  }

  /** A row the database shows held: agent, job, what it occupies, and its state. */
  datatype Row = Row(agent: AgentId, job: JobId, grant: Grant, state: JobState)

  /** Replaying rows, in order, over emptied holdings; rows of unknown agents are handed back. */
  function Replay(l: Ledger, rows: seq<Row>): (Ledger, seq<JobId>) {
    if rows == [] then (l, [])
    else
      var (m, orphans) := Replay(l, rows[..|rows| - 1]);
      var r := rows[|rows| - 1];
      if !r.state.HoldsCapacity() then (m, orphans)
      else if r.agent in m.held then (Granted(m, r.agent, r.job, r.grant), orphans)
      else (m, orphans + [r.job])
  }

  function Emptied(l: Ledger): Ledger {
    l.(held := map a | a in l.held :: map[])
  }

  lemma {:induction false} ReplayKeepsAgents(l: Ledger, rows: seq<Row>)
    ensures Replay(l, rows).0.limits == l.limits && Replay(l, rows).0.held.Keys == l.held.Keys
  {
    if rows != [] {
      ReplayKeepsAgents(l, rows[..|rows| - 1]);
    }
  }

  predicate Occupies(r: Row, a: AgentId, j: JobId) { r.state.HoldsCapacity() && r.agent == a && r.job == j }

  /** The rebuilt ledger holds exactly the rows that occupy a slot of a known agent, as they are. */
  lemma {:induction false} ReplayHoldsTheRows(l: Ledger, rows: seq<Row>, a: AgentId, j: JobId)
    requires a in l.held && l.held[a] == map[]
    requires forall r, s | r in rows && s in rows && r.job == s.job :: r == s
    ensures a in Replay(l, rows).0.held
    ensures j in Replay(l, rows).0.held[a] <==> exists r | r in rows :: Occupies(r, a, j)
    ensures forall r | r in rows && Occupies(r, a, j) :: Replay(l, rows).0.held[a][j] == r.grant
  {
    if rows != [] {
      var most, r := rows[..|rows| - 1], rows[|rows| - 1];
      assert rows == most + [r];
      ReplayHoldsTheRows(l, most, a, j);
      ReplayKeepsAgents(l, most);
      assert r in rows;
    }
  }

  /** What is handed back is the jobs of the rows that occupy a slot of an agent nobody knows. */
  lemma {:induction false} OrphansAreTheUnknown(l: Ledger, rows: seq<Row>, j: JobId)
    ensures j in Replay(l, rows).1 <==>
      exists r | r in rows :: r.job == j && r.state.HoldsCapacity() && r.agent !in l.held
  {
    if rows != [] {
      var most, r := rows[..|rows| - 1], rows[|rows| - 1];
      assert rows == most + [r];
      OrphansAreTheUnknown(l, most, j);
      ReplayKeepsAgents(l, most);
    }
  }

  /** Of rows that are one for each job, no job gets a second holder. */
  lemma ReplayHoldsOnce(l: Ledger, rows: seq<Row>)
    requires forall a | a in l.held :: l.held[a] == map[]
    requires forall r, s | r in rows && s in rows && r.job == s.job :: r == s
    ensures OneHolderEach(Replay(l, rows).0)
  {
    var m := Replay(l, rows).0;
    ReplayKeepsAgents(l, rows);
    forall a, b, j | a in m.held && b in m.held && j in m.held[a] && j in m.held[b] ensures a == b {
      ReplayHoldsTheRows(l, rows, a, j);
      ReplayHoldsTheRows(l, rows, b, j);
    }
  }

  class CapacityLedger {
    var limits: map<AgentId, AgentLimits>
    var held: map<AgentId, Holdings>

    constructor ()
      ensures Now() == Ledger(map[], map[])
    {
      limits, held := map[], map[];
    }

    ghost function Now(): Ledger
      reads this
    {
      Ledger(limits, held)
    }

    method SetLimits(a: AgentId, lim: AgentLimits)
      modifies this
      ensures Now() == Limited(old(Now()), a, lim)
    {
      limits := limits[a := lim];
      if a !in held { held := held[a := map[]]; }
    }

    method RemoveAgent(a: AgentId)
      modifies this
      ensures Now() == Forgotten(old(Now()), a)
    {
      limits, held := limits - {a}, held - {a};
    }

    /** Take every permit a job needs, or none of them. */
    method TryAcquire(a: AgentId, j: JobId, g: Grant) returns (r: Admission)
      modifies `held
      ensures r.Admitted? <==> HasRoom(old(Now()), a, j, g)
      ensures r.Refused? ==> Obstacle(old(Now()), a, j, g) == Some(r.why) && Now() == old(Now())
      ensures r.Admitted? ==> Obstacle(old(Now()), a, j, g) == None && Now() == Granted(old(Now()), a, j, g)
    {
      if a !in limits { return Refused(UnknownAgent); }
      if exists b | b in held :: j in held[b] { return Refused(AlreadyHeld); }
      var mine := if a in held then held[a] else map[];
      if |mine| >= limits[a].totalSlots { return Refused(TotalSlots); }
      if |OfClass(mine, g.class_)| >= limits[a].ClassLimit(g.class_) { return Refused(ClassSlots); }
      if g.size == Large && |OfLarge(mine)| >= limits[a].largeSlots { return Refused(LargeSlots); }
      held := held[a := mine[j := g]];
      return Admitted;
    }

    /** Release whatever a job holds.  It holds at most one grant, so one removal is enough. */
    method Release(j: JobId) returns (released: bool)
      modifies `held
      ensures released == old(Now()).HeldAnywhere(j)
      ensures !released ==> held == old(held)
      ensures released ==> exists a | a in old(held) && j in old(held)[a] :: held == old(held)[a := old(held)[a] - {j}]
      ensures OneHolderEach(old(Now())) ==> Now() == Released(old(Now()), j)
    {
      released := false;
      var agents := held.Keys;
      while agents != {}
        invariant !released && held == old(held) && agents <= held.Keys
        invariant forall a | a in held :: a in agents || j !in held[a]
        decreases |agents|
      {
        var a :| a in agents;
        if j in held[a] {
          assert OneHolderEach(Now()) ==> forall b | b in held && b != a :: held[b] - {j} == held[b];
          held := held[a := held[a] - {j}];
          return true;
        }
        agents := agents - {a};
      }
      assert forall a | a in held :: held[a] - {j} == held[a];
    }

    /** A slot is given back when a job leaves the held states, whatever it turns into. */
    method OnTransition(j: JobId, from: JobState, to: JobState)
      modifies `held
      ensures !from.HoldsCapacity() || to.HoldsCapacity() ==> held == old(held)
      ensures from.HoldsCapacity() && !to.HoldsCapacity() && OneHolderEach(old(Now())) ==>
        Now() == Released(old(Now()), j)
    {
      if from.HoldsCapacity() && !to.HoldsCapacity() { var _ := Release(j); }
    }

    /** Rebuild from the rows the database says are in flight. */
    method Rebuild(rows: seq<Row>) returns (orphans: seq<JobId>)
      modifies `held
      ensures (Now(), orphans) == Replay(Emptied(old(Now())), rows)
    {
      held := map a | a in held :: map[];
      orphans := [];
      ghost var empty := Now();
      var i := 0;
      while i < |rows|
        invariant 0 <= i <= |rows|
        invariant (Now(), orphans) == Replay(empty, rows[..i])
      {
        assert rows[..i + 1][..i] == rows[..i];
        var r := rows[i];
        if r.state.HoldsCapacity() {
          if r.agent in held {
            held := held[r.agent := held[r.agent][r.job := r.grant]];
          } else {
            orphans := orphans + [r.job];
          }
        }
        i := i + 1;
      }
      assert rows[..i] == rows;
    }
  }
}
