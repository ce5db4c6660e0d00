/** What an agent can do, what a job needs, and whether the two match. */
module Capability {
  import opened Optional
  import opened Plans

  datatype AgentClass = Cpu | Gpu | Audio

  datatype Platform = Linux | Windows

  datatype ContainerId = Matroska | Mp4

  datatype DecoderKind = Software | Nvdec | Qsv | Vaapi | Videotoolbox

  datatype DecoderStatus = Untested | VerifiedOk | VerifiedSoftFallback | VerifiedFail

  datatype DecoderTriple = DecoderTriple(codec: string, profile: string, bitDepth: BitDepth, kind: DecoderKind)

  datatype DecoderCapability = DecoderCapability(triple: DecoderTriple, status: DecoderStatus)

  datatype MountPoint = MountPoint(canonicalPrefix: string, writable: bool)

  datatype TransportMode = Mount | Stream

  datatype Profile = Profile(
    transport: TransportMode,
    classes: seq<AgentClass>,
    encoders: seq<EncoderId>,
    muxers: seq<ContainerId>,
    decoders: seq<DecoderCapability>,
    effectiveCores: real,
    mounts: seq<MountPoint>,
    platform: Option<Platform>,
    workareaFreeBytes: nat,
    labels: seq<(string, string)>)

  datatype Requirement =
    | NeedsClass(class_: AgentClass)
    | NeedsEncoder(encoder: EncoderId)
    | NeedsDecoder(triple: DecoderTriple)
    | NeedsMuxer(muxer: ContainerId)
    | MinEffectiveCores(cores: real)
    | MinFreeBytes(bytes: nat)
    | MountCovers(prefix: string)
    | PlatformIn(allowed: seq<Platform>)
    | LabelEquals(name: string, value: string)
  {
    /** Whether it partitions agents, rather than describing one file's needs. */
    predicate IsCategorical() {
      !MinEffectiveCores? && !MinFreeBytes? && !MountCovers?
    }
  }

  /** The recorded verdict on a decode triple: the first one, if there is one. */
  function StatusOf(decoders: seq<DecoderCapability>, t: DecoderTriple): DecoderStatus {
    if decoders == [] then Untested
    else if decoders[0].triple == t then decoders[0].status
    else StatusOf(decoders[1..], t)
  }

  predicate Covers(mounts: seq<MountPoint>, prefix: string) {
    exists m | m in mounts :: m.canonicalPrefix <= prefix && m.writable
  }

  predicate Met(p: Profile, r: Requirement) {
    match r
    case NeedsClass(c) => c in p.classes
    case NeedsEncoder(e) => e in p.encoders
    case NeedsDecoder(t) => StatusOf(p.decoders, t) == VerifiedOk
    case NeedsMuxer(m) => m in p.muxers
    case MinEffectiveCores(n) => p.effectiveCores >= n
    case MinFreeBytes(b) => p.workareaFreeBytes >= b
    case MountCovers(prefix) => p.transport == Stream || Covers(p.mounts, prefix)
    case PlatformIn(allowed) => p.platform.Some? && p.platform.value in allowed
    case LabelEquals(k, v) => (k, v) in p.labels
  }

  /** The first unmet requirement. */
  function Satisfies(p: Profile, reqs: seq<Requirement>): Option<Requirement> {
    if reqs == [] then None
    else if !Met(p, reqs[0]) then Some(reqs[0])
    else Satisfies(p, reqs[1..])
  }

  /** No requirement is reported exactly when all are met; the one reported is the first unmet one. */
  lemma {:induction false} SatisfiesReportsTheFirstUnmet(p: Profile, reqs: seq<Requirement>)
    ensures Satisfies(p, reqs) == None <==> forall r | r in reqs :: Met(p, r)
    ensures Satisfies(p, reqs).Some? ==> exists i | 0 <= i < |reqs| ::
      Satisfies(p, reqs) == Some(reqs[i]) && !Met(p, reqs[i]) && forall k | 0 <= k < i :: Met(p, reqs[k])
  {
    if reqs != [] {
      assert reqs == [reqs[0]] + reqs[1..];
      if Met(p, reqs[0]) {
        SatisfiesReportsTheFirstUnmet(p, reqs[1..]);
        if Satisfies(p, reqs[1..]).Some? {
          var i :| 0 <= i < |reqs[1..]| && Satisfies(p, reqs) == Some(reqs[1..][i]) && !Met(p, reqs[1..][i])
            && forall k | 0 <= k < i :: Met(p, reqs[1..][k]);
          assert reqs[i + 1] == reqs[1..][i];
          forall k | 0 <= k < i + 1 ensures Met(p, reqs[k]) {
            if k > 0 { assert reqs[k] == reqs[1..][k - 1]; }
          }
        }
      } else {
        assert reqs[0] in reqs;
      }
    }
  }

  function Categorical(reqs: seq<Requirement>): seq<Requirement> {
    if reqs == [] then []
    else (if reqs[0].IsCategorical() then [reqs[0]] else []) + Categorical(reqs[1..])
  }

  /** The key two interchangeable jobs share: what is left of sorting and hashing is a multiset. */
  type Bucket = multiset<Requirement>

  function BucketKey(reqs: seq<Requirement>): Bucket { multiset(Categorical(reqs)) }

  lemma {:induction false} CategoricalMembers(reqs: seq<Requirement>, r: Requirement)
    ensures r in Categorical(reqs) <==> r in reqs && r.IsCategorical()
  {
    if reqs != [] {
      assert reqs == [reqs[0]] + reqs[1..];
      CategoricalMembers(reqs[1..], r);
    }
  }

  /** Whether an agent can run the jobs of a bucket, read off the key alone. */
  predicate OpenTo(p: Profile, b: Bucket) { forall r | r in b :: Met(p, r) }

  /** Jobs that share a key share a verdict, whatever order their requirements came in. */
  lemma VerdictDependsOnTheKeyAlone(p: Profile, reqs: seq<Requirement>)
    ensures Satisfies(p, Categorical(reqs)) == None <==> OpenTo(p, BucketKey(reqs))
  {
    SatisfiesReportsTheFirstUnmet(p, Categorical(reqs));
    forall r ensures r in Categorical(reqs) <==> r in BucketKey(reqs) {
    }
  }
}
