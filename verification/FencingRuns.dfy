/** One agent's registrations and streams over any run: which stream is in the table. */
module FencingRuns {
  import opened Optional
  import opened Jobs
  import opened Fencing

  /** `Open` asks for a stream under an epoch; `Close` is the end of one, and `Beat` a heartbeat on one,
   *  whether or not it has been displaced.
   */
  datatype Event =
    | Register(id: Identity)
    | Open(claimed: int, quarantined: bool)
    | Close(stream: nat)
    | Beat(stream: nat, running: seq<JobId>)

  /** A stream that was let in: its epoch, and how many registrations had been asked for by then. */
  datatype Stream = Stream(epoch: int, registrations: nat)

  /** What was asked of the registry, every stream there has been, and the table. */
  datatype Sessions = Sessions(ids: seq<Identity>, streams: seq<Stream>, table: Table)

  function KnownTo(gate: VersionGate, ids: seq<Identity>): Option<Known> { Admissions(gate, None, ids).0 }

  function History(gate: VersionGate, ids: seq<Identity>): seq<Admission> { Admissions(gate, None, ids).1 }

  /** A stream is let in under the epoch its agent was last admitted with. */
  predicate LetIn(gate: VersionGate, s: Sessions, e: Event) {
    && e.Open? && !e.quarantined
    && KnownTo(gate, s.ids).Some? && e.claimed == KnownTo(gate, s.ids).value.epoch
  }

  function Next(gate: VersionGate, a: AgentId, s: Sessions, e: Event): Sessions {
    match e
    case Register(id) => s.(ids := s.ids + [id])
    case Open(claimed, _) =>
      if LetIn(gate, s, e)
      then s.(streams := s.streams + [Stream(claimed, |s.ids|)], table := Joined(s.table, a, claimed, |s.streams|))
      else s
    case Close(n) => if n < |s.streams| then s.(table := Left(s.table, a, s.streams[n].epoch)) else s
    case Beat(n, running) => if n < |s.streams| then s.(table := Claiming(s.table, a, running)) else s
  }

  function Run(gate: VersionGate, a: AgentId, es: seq<Event>): Sessions {
    if es == [] then Sessions([], [], map[]) else Next(gate, a, Run(gate, a, es[..|es| - 1]), es[|es| - 1])
  }

  // ---- What a stream's epoch says

  lemma {:induction false} HistoryGrows(gate: VersionGate, ids: seq<Identity>, n: nat)
    requires n <= |ids|
    ensures History(gate, ids[..n]) <= History(gate, ids)
  {
    if n < |ids| {
      var m := |ids| - 1;
      assert ids[..m][..n] == ids[..n];
      HistoryGrows(gate, ids[..m], n);
    } else {
      assert ids[..n] == ids;
    }
  }

  /** A stream was let in after an admission, under the epoch of the latest one. */
  ghost predicate StreamFits(gate: VersionGate, ids: seq<Identity>, x: Stream) {
    && x.registrations <= |ids|
    && var h := History(gate, ids[..x.registrations]);
       h != [] && x.epoch == h[|h| - 1].epoch
  }

  ghost predicate StreamsFit(gate: VersionGate, s: Sessions) {
    && (forall m | 0 <= m < |s.streams| :: StreamFits(gate, s.ids, s.streams[m]))
    && (forall m, n | 0 <= m <= n < |s.streams| :: s.streams[m].registrations <= s.streams[n].registrations)
  }

  lemma OneStreamMore(gate: VersionGate, s: Sessions, e: Event)
    requires LetIn(gate, s, e)
    ensures StreamFits(gate, s.ids, Stream(e.claimed, |s.ids|))
  {
    RegistryIsTheLastAdmission(gate, None, s.ids);
    assert s.ids[..|s.ids|] == s.ids;
  }

  lemma NextKeepsStreamsFit(gate: VersionGate, a: AgentId, s: Sessions, e: Event)
    requires StreamsFit(gate, s)
    ensures StreamsFit(gate, Next(gate, a, s, e))
  {
    if e.Register? {
      forall m | 0 <= m < |s.streams| ensures StreamFits(gate, s.ids + [e.id], s.streams[m]) {
        var x := s.streams[m];
        assert StreamFits(gate, s.ids, x);
        assert (s.ids + [e.id])[..x.registrations] == s.ids[..x.registrations];
      }
    } else if LetIn(gate, s, e) {
      OneStreamMore(gate, s, e);
      forall m | 0 <= m < |s.streams| ensures s.streams[m].registrations <= |s.ids| {
        assert StreamFits(gate, s.ids, s.streams[m]);
      }
    }
  }

  lemma {:induction false} RunKeepsStreamsFit(gate: VersionGate, a: AgentId, es: seq<Event>)
    ensures StreamsFit(gate, Run(gate, a, es))
  {
    if es != [] {
      RunKeepsStreamsFit(gate, a, es[..|es| - 1]);
      NextKeepsStreamsFit(gate, a, Run(gate, a, es[..|es| - 1]), es[|es| - 1]);
    }
  }

  /** One process opened both streams, and no other was admitted from the first to the second. */
  ghost predicate OneProcess(gate: VersionGate, s: Sessions, m: nat, n: nat)
    requires StreamsFit(gate, s) && m <= n < |s.streams|
  {
    var x, y := s.streams[m], s.streams[n];
    assert StreamFits(gate, s.ids, x) && StreamFits(gate, s.ids, y);
    assert s.ids[..y.registrations][..x.registrations] == s.ids[..x.registrations];
    var h := History(gate, s.ids[..y.registrations]);
    HistoryGrows(gate, s.ids[..y.registrations], x.registrations);
    SameProcessThroughout(h, |History(gate, s.ids[..x.registrations])| - 1, |h| - 1)
  }

  /** Two streams of a run share an epoch exactly when one process opened both, with no other admitted
   *  between.
   */
  lemma StreamsShareAnEpochExactlyWhen(gate: VersionGate, a: AgentId, es: seq<Event>, m: nat, n: nat)
    requires m <= n < |Run(gate, a, es).streams|
    ensures StreamsFit(gate, Run(gate, a, es))
    ensures
      var s := Run(gate, a, es);
      s.streams[m].epoch == s.streams[n].epoch <==> OneProcess(gate, s, m, n)
  {
    RunKeepsStreamsFit(gate, a, es);
    SharingAnEpoch(gate, Run(gate, a, es), m, n);
  }

  lemma SharingAnEpoch(gate: VersionGate, s: Sessions, m: nat, n: nat)
    requires StreamsFit(gate, s) && m <= n < |s.streams|
    ensures s.streams[m].epoch == s.streams[n].epoch <==> OneProcess(gate, s, m, n)
  {
    var x, y := s.streams[m], s.streams[n];
    assert StreamFits(gate, s.ids, x) && StreamFits(gate, s.ids, y);
    var before, upTo := s.ids[..x.registrations], s.ids[..y.registrations];
    assert upTo[..x.registrations] == before;
    HistoryGrows(gate, upTo, x.registrations);
    EpochsSeparateProcesses(gate, None, upTo, |History(gate, before)| - 1, |History(gate, upTo)| - 1);
  }

  // ---- Which stream is in the table

  /** What an event does to the streams: one opens under an epoch, one of an epoch ends, or neither. */
  datatype Mark = Opened(epoch: int) | Ended(epoch: int) | Neither

  function MarkOf(gate: VersionGate, s: Sessions, e: Event): Mark {
    if LetIn(gate, s, e) then Opened(e.claimed)
    else if e.Close? && e.stream < |s.streams| then Ended(s.streams[e.stream].epoch)
    else Neither
  }

  function Marks(gate: VersionGate, a: AgentId, es: seq<Event>): (ms: seq<Mark>)
    ensures |ms| == |es|
  {
    if es == [] then []
    else Marks(gate, a, es[..|es| - 1]) + [MarkOf(gate, Run(gate, a, es[..|es| - 1]), es[|es| - 1])]
  }

  /** Here a stream opens, and from here on no stream opens and none of its epoch ends. */
  ghost predicate StandsSince(ms: seq<Mark>, i: nat) {
    && i < |ms| && ms[i].Opened?
    && forall k | i < k < |ms| :: !ms[k].Opened? && ms[k] != Ended(ms[i].epoch)
  }

  ghost predicate Stands(ms: seq<Mark>) { exists i: nat :: StandsSince(ms, i) }

  /** The epoch of the stream that stands, found one event at a time. */
  function Standing(ms: seq<Mark>): Option<int> {
    if ms == [] then None
    else
      var most, last := Standing(ms[..|ms| - 1]), ms[|ms| - 1];
      if last.Opened? then Some(last.epoch) else if last.Ended? && most == Some(last.epoch) then None else most
  }

  lemma StandsSinceGrows(ms: seq<Mark>, last: Mark, i: nat)
    requires i < |ms|
    ensures StandsSince(ms + [last], i) <==>
      StandsSince(ms, i) && !last.Opened? && last != Ended(ms[i].epoch)
  {
    var more := ms + [last];
    assert more[|ms|] == last && forall k | 0 <= k < |ms| :: more[k] == ms[k];
  }

  lemma {:induction false} StandingMeans(ms: seq<Mark>)
    ensures forall i: nat | StandsSince(ms, i) :: Standing(ms) == Some(ms[i].epoch)
    ensures Standing(ms).Some? ==> Stands(ms)
  {
    if ms != [] {
      var n := |ms| - 1;
      var most, last := ms[..n], ms[n];
      assert ms == most + [last];
      StandingMeans(most);
      forall i: nat | StandsSince(ms, i) ensures Standing(ms) == Some(ms[i].epoch) {
        if i < n { StandsSinceGrows(most, last, i); }
      }
      if last.Opened? {
        assert StandsSince(ms, n);
      } else if Standing(ms).Some? {
        var i: nat :| StandsSince(most, i);
        StandsSinceGrows(most, last, i);
      }
    }
  }

  lemma StandsExactly(ms: seq<Mark>)
    ensures Stands(ms) <==> Standing(ms).Some?
  {
    StandingMeans(ms);
  }

  /** What the agent said last on any stream since its newest one opened. */
  function Said(gate: VersionGate, a: AgentId, es: seq<Event>): seq<JobId> {
    if es == [] then [] else Hearing(gate, Run(gate, a, es[..|es| - 1]), es[|es| - 1], Said(gate, a, es[..|es| - 1]))
  }

  function Hearing(gate: VersionGate, s: Sessions, e: Event, said: seq<JobId>): seq<JobId> {
    if LetIn(gate, s, e) then [] else if e.Beat? && e.stream < |s.streams| then e.running else said
  }

  /** The table agrees: the agent is in it while a stream stands, and its entry is the newest stream. */
  ghost predicate EntryIs(s: Sessions, a: AgentId, standing: Option<int>, said: seq<JobId>) {
    && (a in s.table <==> standing.Some?)
    && (a in s.table ==>
          && s.streams != []
          && s.streams[|s.streams| - 1].epoch == standing.value
          && s.table[a] == Connected(|s.streams| - 1, standing.value, said))
  }

  lemma {:induction false} TableFollows(gate: VersionGate, a: AgentId, es: seq<Event>)
    ensures EntryIs(Run(gate, a, es), a, Standing(Marks(gate, a, es)), Said(gate, a, es))
  {
    if es != [] {
      var n := |es| - 1;
      var s, ms := Run(gate, a, es[..n]), Marks(gate, a, es[..n]);
      TableFollows(gate, a, es[..n]);
      assert Marks(gate, a, es)[..n] == ms;
    }
  }

  /** Over any run of registrations, streams and heartbeats the agent is in the table exactly when no stream
   *  of its newest stream's epoch has ended since that one opened; what is in the table is that stream,
   *  its epoch, and what the agent said last since then.
   */
  lemma TableHoldsTheNewestStream(gate: VersionGate, a: AgentId, es: seq<Event>)
    ensures
      var s := Run(gate, a, es);
      && (a in s.table <==> Stands(Marks(gate, a, es)))
      && (a in s.table ==>
            && s.streams != []
            && s.table[a] == Connected(|s.streams| - 1, s.streams[|s.streams| - 1].epoch, Said(gate, a, es)))
  {
    TableFollows(gate, a, es);
    StandsExactly(Marks(gate, a, es));
  }

  /** The end of a stream takes its agent out of the table exactly if it and the newest one were opened by one
   *  process, with no other admitted between.
   */
  lemma LateCloseEvictsExactlyWhen(gate: VersionGate, a: AgentId, es: seq<Event>, s: Sessions, m: nat)
    requires s == Run(gate, a, es) && m < |s.streams| && a in s.table
    ensures StreamsFit(gate, s)
    ensures a !in Next(gate, a, s, Close(m)).table <==> OneProcess(gate, s, m, |s.streams| - 1)
  {
    TableFollows(gate, a, es);
    StreamsShareAnEpochExactlyWhen(gate, a, es, m, |s.streams| - 1);
  }
}
