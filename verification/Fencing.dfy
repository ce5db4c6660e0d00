/** Who may join, under which epoch, and whose stream is in the table. */
module Fencing {
  import opened Optional
  import opened Jobs

  datatype Semver = Semver(major: nat, minor: nat, patch: nat) {
    predicate Before(other: Semver) {
      || major < other.major
      || (major == other.major && minor < other.minor)
      || (major == other.major && minor == other.minor && patch < other.patch)
    }
  }

  /** One installation and one process of it. `version` is missing when it could not be parsed. */
  datatype Identity = Identity(uid: string, bootId: string, version: Option<Semver>, proto: nat) {
    function Instance(): (string, string) { (uid, bootId) }
  }

  datatype RegisterOutcome = Accepted(epoch: int, newInstance: bool) | Rejected

  datatype VersionGate = VersionGate(minSupportedProto: nat, serverProto: nat, minAgentVersion: Semver) {
    function Evaluate(id: Identity, knownBootId: Option<string>, currentEpoch: int): RegisterOutcome {
      if id.proto < minSupportedProto then Rejected
      else if id.proto > serverProto then Rejected
      else if id.version.None? || id.version.value.Before(minAgentVersion) then Rejected
      else
        var newInstance := knownBootId != Some(id.bootId);
        Accepted(if newInstance then currentEpoch + 1 else currentEpoch, newInstance)
    }
  }

  /** What the registry last accepted under a name. */
  datatype Known = Known(uid: string, bootId: string, epoch: int)

  /** One registration: another installation under the same name does not inherit the boot id. */
  function Register(gate: VersionGate, known: Option<Known>, id: Identity): (Option<Known>, RegisterOutcome) {
    var knownBootId := if known.Some? && known.value.uid == id.uid then Some(known.value.bootId) else None;
    var current := if known.Some? then known.value.epoch else 0;
    match gate.Evaluate(id, knownBootId, current)
    case Rejected => (known, Rejected)
    case Accepted(epoch, isNew) => (Some(Known(id.uid, id.bootId, epoch)), Accepted(epoch, isNew))
  }

  /** What was accepted: which process, and under which epoch. */
  datatype Admission = Admission(instance: (string, string), epoch: int)

  /** The admissions of a run of registrations, and what the registry knows after it. */
  function Admissions(gate: VersionGate, known: Option<Known>, ids: seq<Identity>): (Option<Known>, seq<Admission>) {
    if ids == [] then (known, [])
    else
      var n := |ids| - 1;
      var (k, most) := Admissions(gate, known, ids[..n]);
      match Register(gate, k, ids[n])
      case (l, Rejected) => (l, most)
      case (l, Accepted(epoch, _)) => (l, most + [Admission(ids[n].Instance(), epoch)])
  }

  ghost predicate SameProcessThroughout(h: seq<Admission>, i: nat, k: nat)
    requires i <= k < |h|
  {
    forall m | i <= m <= k :: h[m].instance == h[i].instance
  }

  /** What is registered is what was admitted last. */
  lemma {:induction false} RegistryIsTheLastAdmission(gate: VersionGate, known: Option<Known>, ids: seq<Identity>)
    ensures
      var (k, h) := Admissions(gate, known, ids);
      if h == [] then k == known
      else k == Some(Known(h[|h| - 1].instance.0, h[|h| - 1].instance.1, h[|h| - 1].epoch))
  {
    if ids != [] {
      RegistryIsTheLastAdmission(gate, known, ids[..|ids| - 1]);
    }
  }

  /** Over any run of registrations epochs never fall, and two admissions share one exactly when the same
   *  process was admitted both times and no other in between.
   */
  lemma {:induction false} EpochsSeparateProcesses(
      gate: VersionGate, known: Option<Known>, ids: seq<Identity>, i: nat, k: nat)
    requires i <= k < |Admissions(gate, known, ids).1|
    ensures
      var h := Admissions(gate, known, ids).1;
      && h[i].epoch <= h[k].epoch
      && (h[i].epoch == h[k].epoch <==> SameProcessThroughout(h, i, k))
  {
    var n := |ids| - 1;
    var h, most := Admissions(gate, known, ids).1, Admissions(gate, known, ids[..n]).1;
    if k < |most| {
      EpochsSeparateProcesses(gate, known, ids[..n], i, k);
      assert forall m | 0 <= m < |most| :: h[m] == most[m];
    } else if i < k {
      EpochsSeparateProcesses(gate, known, ids[..n], i, k - 1);
      assert forall m | 0 <= m < |most| :: h[m] == most[m];
      RegistryIsTheLastAdmission(gate, known, ids[..n]);
      assert h[k].epoch == h[k - 1].epoch <==> h[k].instance == h[k - 1].instance;
      if SameProcessThroughout(h, i, k) {
        assert SameProcessThroughout(most, i, k - 1);
        assert h[k].instance == h[k - 1].instance;
      } else if SameProcessThroughout(most, i, k - 1) {
        assert h[k].instance != h[k - 1].instance;
      }
    }
  }

  /** As new as the least version that is let in, or newer. */
  predicate NewEnough(v: Semver, least: Semver) {
    || v.major > least.major
    || (v.major == least.major && (v.minor > least.minor || (v.minor == least.minor && v.patch >= least.patch)))
  }

  /** A refusal leaves the registry as it was; it comes exactly of a protocol outside the server's range, or of an
   *  agent whose version is unknown or too old.
   */
  lemma OnlyVersionsAreRefused(gate: VersionGate, known: Option<Known>, id: Identity)
    ensures Register(gate, known, id).1.Rejected? <==>
      || id.proto < gate.minSupportedProto || id.proto > gate.serverProto
      || id.version.None? || !NewEnough(id.version.value, gate.minAgentVersion)
    ensures Register(gate, known, id).1.Rejected? ==> Register(gate, known, id).0 == known
  {
  }

  // ---- The table of streams

  /** A live connection: the stream it is, the epoch it opened under, and what the agent last claimed. */
  datatype Connected = Connected(stream: nat, epoch: int, running: seq<JobId>)

  type Table = map<AgentId, Connected>

  function Joined(t: Table, a: AgentId, epoch: int, stream: nat): Table { t[a := Connected(stream, epoch, [])] }

  function Left(t: Table, a: AgentId, epoch: int): Table { if a in t && t[a].epoch == epoch then t - {a} else t }

  /** What an agent says it is running is kept while it is connected, whichever of its streams says so. */
  function Claiming(t: Table, a: AgentId, running: seq<JobId>): Table {
    if a in t then t[a := t[a].(running := running)] else t
  }

  class AgentTable {
    var inner: Table

    constructor ()
      ensures inner == map[]
    {
      inner := map[];
    }

    /** Register a connection, displacing any older one for the same agent. */
    method Connect(a: AgentId, epoch: int, stream: nat) returns (displaced: Option<Connected>)
      modifies this
      ensures inner == Joined(old(inner), a, epoch, stream)
      ensures displaced == if a in old(inner) then Some(old(inner)[a]) else None
    {
      displaced := if a in inner then Some(inner[a]) else None;
      inner := inner[a := Connected(stream, epoch, [])];
    }

    /** Drop a connection, if the one in the table has the epoch of the one that ends. */
    method Disconnect(a: AgentId, epoch: int)
      modifies this
      ensures inner == Left(old(inner), a, epoch)
    {
      if a in inner && inner[a].epoch == epoch { inner := inner - {a}; }
    }

    /** Record what an agent says it is running. */
    method SetRunning(a: AgentId, running: seq<JobId>)
      modifies this
      ensures inner == Claiming(old(inner), a, running)
    {
      if a in inner { inner := inner[a := inner[a].(running := running)]; }
    }
  }

  /** The late teardown of a displaced stream evicts its replacement exactly when both opened under one
   *  epoch: when the same process reconnected, with no other admitted in between.
   */
  lemma TeardownEvictsOnlyTheSameProcess(
      gate: VersionGate, known: Option<Known>, ids: seq<Identity>, i: nat, k: nat,
      t: Table, a: AgentId, older: nat, newer: nat)
    requires i <= k < |Admissions(gate, known, ids).1|
    ensures
      var h := Admissions(gate, known, ids).1;
      var replaced := Joined(Joined(t, a, h[i].epoch, older), a, h[k].epoch, newer);
      && (a !in Left(replaced, a, h[i].epoch) <==> SameProcessThroughout(h, i, k))
      && (!SameProcessThroughout(h, i, k) ==> Left(replaced, a, h[i].epoch)[a].stream == newer)
      && forall b | b in t && b != a :: b in Left(replaced, a, h[i].epoch) && Left(replaced, a, h[i].epoch)[b] == t[b]
  {
    EpochsSeparateProcesses(gate, known, ids, i, k);
  }
}
