/** Rules that decide what work a file is owed, and the job and the encode a decision turns into. */
module Policy {
  import opened Optional
  import opened Plans
  import opened Jobs
  import opened Capability

  datatype Facts = Facts(
    durationUs: Option<nat>,
    sizeBytes: nat,
    bitRateBps: Option<nat>,
    videoCodec: Option<string>,
    videoBitDepth: Option<BitDepth>,
    width: Option<nat>,
    isHdr: bool,
    isDovi: bool,
    doviProfile: Option<nat>,
    hasObjectAudio: bool,
    audioCodecs: seq<string>)
  {
    predicate VideoIsEncodable() { !isHdr && !isDovi }

    predicate IsExcluded() { hasObjectAudio || doviProfile in {Some(7), Some(0)} }

    predicate NeedsAudioConversion() {
      exists c, n | c in audioCodecs && n in AUDIO_NEEDING_CONVERSION :: Contains(c, n)
    }
  }

  const AUDIO_NEEDING_CONVERSION: seq<string> :=
    ["truehd", "dts", "flac", "pcm", "mlp", "opus", "pcm_s16le", "pcm_s24le"]

  predicate Contains(s: string, part: string) {
    exists i | 0 <= i <= |s| :: part <= s[i..]
  }

  function Or0(n: Option<nat>): nat { if n.Some? then n.value else 0 }

  datatype Match = Match(
    videoCodecIn: seq<string>,
    audioCodecAny: seq<string>,
    minWidth: Option<nat>,
    minBitRateBps: Option<nat>,
    minSizeBytes: Option<nat>,
    isHdr: Option<bool>,
    isDovi: Option<bool>)
  {
    /** Every predicate that is present holds; an empty match holds of everything. */
    predicate Matches(f: Facts) {
      && (videoCodecIn != [] ==> f.videoCodec.Some? && f.videoCodec.value in videoCodecIn)
      && (audioCodecAny != [] ==> exists c, w | c in f.audioCodecs && w in audioCodecAny :: Contains(c, w))
      && (minWidth.Some? ==> Or0(f.width) >= minWidth.value)
      && (minBitRateBps.Some? ==> Or0(f.bitRateBps) >= minBitRateBps.value)
      && (minSizeBytes.Some? ==> f.sizeBytes >= minSizeBytes.value)
      && (isHdr.Some? ==> f.isHdr == isHdr.value)
      && (isDovi.Some? ==> f.isDovi == isDovi.value)
    }
  }

  datatype Action =
    | EncodeVideo(encoderPreference: seq<EncoderId>, quality: nat)
    | EncodeAudio(codec: EncoderId, bitrate: string)
    | Skip
    | SkipVideo
    | Quarantine

  datatype Rule = Rule(name: string, when: Match, then_: Action)

  datatype SizeThresholds = SizeThresholds(smallMaxBytes: nat, mediumMaxBytes: nat)

  datatype DecisionClass = Nothing | AudioOnly | VideoOnly | AudioThenVideo | Quarantined

  datatype AudioPlan = AudioPlan(codec: EncoderId, bitrate: string)

  datatype VideoPlan = VideoPlan(encoderPreference: seq<EncoderId>, quality: nat, sourceDepth: BitDepth)

  datatype Decision = Decision(class_: DecisionClass, audio: Option<AudioPlan>, video: Option<VideoPlan>)

  datatype Effect =
    | ExcludedByBuiltin | VetoedByBuiltin
    | NoMatch | SkipAll | QuarantineAll | VetoVideo
    | AudioPlanned | AudioAlreadyPlanned
    | VideoPlanned | VideoAlreadyPlanned | VideoVetoed

  datatype Trace = Trace(rule: Option<string>, matched: bool, effect: Effect)

  // ---- What a policy means

  datatype Kind = Stopping | PlansAudio | PlansVideo | Vetoing {
    predicate Covers(a: Action) {
      match this
      case Stopping => a.Skip? || a.Quarantine?
      case PlansAudio => a.EncodeAudio?
      case PlansVideo => a.EncodeVideo?
      case Vetoing => a.SkipVideo?
    }
  }

  predicate Fires(r: Rule, f: Facts, kind: Kind) { r.when.Matches(f) && kind.Covers(r.then_) }

  /** The index of the first matching rule of a kind; the number of rules if there is none. */
  function First(rules: seq<Rule>, f: Facts, kind: Kind): (n: nat)
    ensures n <= |rules|
  {
    if rules == [] || Fires(rules[0], f, kind) then 0 else 1 + First(rules[1..], f, kind)
  }

  lemma {:induction false} FirstIsFirst(rules: seq<Rule>, f: Facts, kind: Kind)
    ensures
      var n := First(rules, f, kind);
      && (n < |rules| ==> Fires(rules[n], f, kind))
      && forall k | 0 <= k < n :: !Fires(rules[k], f, kind)
  {
    if rules != [] && !Fires(rules[0], f, kind) {
      FirstIsFirst(rules[1..], f, kind);
      forall k | 0 < k < First(rules, f, kind) ensures !Fires(rules[k], f, kind) {
        assert rules[k] == rules[1..][k - 1];
      }
    }
  }

  function ClassOf(audio: bool, video: bool): DecisionClass {
    if audio && video then AudioThenVideo
    else if audio then AudioOnly
    else if video then VideoOnly
    else Nothing
  }

  function AudioOf(rules: seq<Rule>, f: Facts): Option<AudioPlan> {
    var n := First(rules, f, PlansAudio);
    FirstIsFirst(rules, f, PlansAudio);
    if n < |rules| then Some(AudioPlan(rules[n].then_.codec, rules[n].then_.bitrate)) else None
  }

  /** The first video rule, unless the file forbids it or a veto comes before it. */
  function VideoOf(rules: seq<Rule>, f: Facts): Option<VideoPlan> {
    var n := First(rules, f, PlansVideo);
    FirstIsFirst(rules, f, PlansVideo);
    if n < |rules| && f.VideoIsEncodable() && n < First(rules, f, Vetoing) then
      Some(VideoPlan(rules[n].then_.encoderPreference, rules[n].then_.quality,
                     DepthOf(f)))
    else None
  }

  function Evaluate(f: Facts, rules: seq<Rule>): Decision {
    if f.IsExcluded() then Decision(Quarantined, None, None)
    else
      var stop := First(rules, f, Stopping);
      if stop < |rules| then Decision(if rules[stop].then_.Skip? then Nothing else Quarantined, None, None)
      else
        var audio, video := AudioOf(rules, f), VideoOf(rules, f);
        Decision(ClassOf(audio.Some?, video.Some?), audio, video)
  }

  // ---- The loop

  /** What one rule contributed: a stage is planned by the first rule that plans it, and by no other. */
  function EffectOf(f: Facts, rules: seq<Rule>, i: nat): Effect
    requires i < |rules|
  {
    if !rules[i].when.Matches(f) then NoMatch
    else
      match rules[i].then_
      case Skip => SkipAll
      case Quarantine => QuarantineAll
      case SkipVideo => VetoVideo
      case EncodeAudio(_, _) => if i == First(rules, f, PlansAudio) then AudioPlanned else AudioAlreadyPlanned
      case EncodeVideo(_, _) =>
        if !f.VideoIsEncodable() || First(rules, f, Vetoing) < i then VideoVetoed
        else if i == First(rules, f, PlansVideo) then VideoPlanned
        else VideoAlreadyPlanned
  }

  /** What the first so many rules contributed, after the veto no rule can lift. */
  function TraceOf(f: Facts, rules: seq<Rule>, n: nat): seq<Trace>
    requires n <= |rules|
  {
    if n == 0 then (if f.VideoIsEncodable() then [] else [Trace(None, true, VetoedByBuiltin)])
    else
      TraceOf(f, rules, n - 1)
      + [Trace(Some(rules[n - 1].name), rules[n - 1].when.Matches(f), EffectOf(f, rules, n - 1))]
  }

  /** What is planned so far. */
  datatype Stages = Stages(audio: Option<AudioPlan>, video: Option<VideoPlan>, videoVetoed: bool)

  function DepthOf(f: Facts): BitDepth { if f.videoBitDepth.Some? then f.videoBitDepth.value else Eight }

  /** What a matching rule that does not stop the evaluation adds to the plans. */
  function Contribute(f: Facts, then_: Action, p: Stages): (Stages, Effect)
    requires !Stopping.Covers(then_)
  {
    match then_
    case SkipVideo => (p.(videoVetoed := true), VetoVideo)
    case EncodeAudio(codec, bitrate) =>
      if p.audio.None? then (p.(audio := Some(AudioPlan(codec, bitrate))), AudioPlanned)
      else (p, AudioAlreadyPlanned)
    case EncodeVideo(preference, quality) =>
      if p.videoVetoed then (p, VideoVetoed)
      else if p.video.None? then (p.(video := Some(VideoPlan(preference, quality, DepthOf(f)))), VideoPlanned)
      else (p, VideoAlreadyPlanned)
  }

  /** The plans after the first so many rules. */
  ghost predicate PlannedBy(f: Facts, rules: seq<Rule>, i: nat, p: Stages) {
    && p.audio == (if First(rules, f, PlansAudio) < i then AudioOf(rules, f) else None)
    && p.video == (if First(rules, f, PlansVideo) < i then VideoOf(rules, f) else None)
    && p.videoVetoed == (!f.VideoIsEncodable() || First(rules, f, Vetoing) < i)
  }

  lemma MatchKeepsPlans(f: Facts, rules: seq<Rule>, i: nat, p: Stages)
    requires i < |rules| && i <= First(rules, f, Stopping) && PlannedBy(f, rules, i, p)
    requires rules[i].when.Matches(f) && !Stopping.Covers(rules[i].then_)
    ensures i < First(rules, f, Stopping)
    ensures PlannedBy(f, rules, i + 1, Contribute(f, rules[i].then_, p).0)
    ensures EffectOf(f, rules, i) == Contribute(f, rules[i].then_, p).1
  {
    forall kind: Kind ensures First(rules, f, kind) == i <==> First(rules, f, kind) >= i && Fires(rules[i], f, kind) {
      FirstIsFirst(rules, f, kind);
    }
  }

  lemma NoMatchKeepsPlans(f: Facts, rules: seq<Rule>, i: nat, p: Stages)
    requires i < |rules| && PlannedBy(f, rules, i, p) && !rules[i].when.Matches(f)
    ensures PlannedBy(f, rules, i + 1, p)
    ensures First(rules, f, Stopping) != i
  {
    forall kind: Kind ensures First(rules, f, kind) == i <==> First(rules, f, kind) >= i && Fires(rules[i], f, kind) {
      FirstIsFirst(rules, f, kind);
    }
  }

  lemma StopIsFirst(f: Facts, rules: seq<Rule>, i: nat)
    requires i < |rules| && i <= First(rules, f, Stopping)
    requires rules[i].when.Matches(f) && Stopping.Covers(rules[i].then_)
    ensures First(rules, f, Stopping) == i
  {
    forall kind: Kind ensures First(rules, f, kind) == i <==> First(rules, f, kind) >= i && Fires(rules[i], f, kind) {
      FirstIsFirst(rules, f, kind);
    }
  }

  /** One pass over the rules, keeping what is planned so far and what each rule contributed. */
  method EvaluateExplained(f: Facts, rules: seq<Rule>) returns (d: Decision, trace: seq<Trace>)
    ensures d == Evaluate(f, rules)
    ensures trace ==
      if f.IsExcluded() then [Trace(None, true, ExcludedByBuiltin)]
      else TraceOf(f, rules, var stop := First(rules, f, Stopping); if stop < |rules| then stop + 1 else |rules|)
  {
    if f.IsExcluded() {
      return Decision(Quarantined, None, None), [Trace(None, true, ExcludedByBuiltin)];
    }
    var audio: Option<AudioPlan>, video: Option<VideoPlan> := None, None;
    var videoVetoed := !f.VideoIsEncodable();
    trace := if videoVetoed then [Trace(None, true, VetoedByBuiltin)] else [];
    for i := 0 to |rules|
      invariant i <= First(rules, f, Stopping) && trace == TraceOf(f, rules, i)
      invariant PlannedBy(f, rules, i, Stages(audio, video, videoVetoed))
    {
      var rule := rules[i];
      if !rule.when.Matches(f) {
        NoMatchKeepsPlans(f, rules, i, Stages(audio, video, videoVetoed));
        trace := trace + [Trace(Some(rule.name), false, NoMatch)];
        continue;
      }
      if rule.then_.Skip? {
        StopIsFirst(f, rules, i);
        return Decision(Nothing, None, None), trace + [Trace(Some(rule.name), true, SkipAll)];
      }
      if rule.then_.Quarantine? {
        StopIsFirst(f, rules, i);
        return Decision(Quarantined, None, None), trace + [Trace(Some(rule.name), true, QuarantineAll)];
      }
      MatchKeepsPlans(f, rules, i, Stages(audio, video, videoVetoed));
      var effect;
      match rule.then_ {
        case SkipVideo =>
          videoVetoed, effect := true, VetoVideo;
        case EncodeAudio(codec, bitrate) =>
          effect := AudioAlreadyPlanned;
          if audio.None? { audio, effect := Some(AudioPlan(codec, bitrate)), AudioPlanned; }
        case EncodeVideo(preference, quality) =>
          effect := if videoVetoed then VideoVetoed else VideoAlreadyPlanned;
          if !videoVetoed && video.None? {
            video, effect := Some(VideoPlan(preference, quality, DepthOf(f))), VideoPlanned;
          }
      }
      trace := trace + [Trace(Some(rule.name), true, effect)];
    }
    d := Decision(ClassOf(audio.Some?, video.Some?), audio, video);
  }

  // ---- What no policy can do

  /** Object audio, or a Dolby Vision profile that cannot be re-encoded. */
  predicate Untouchable(f: Facts) { f.hasObjectAudio || f.doviProfile == Some(7) || f.doviProfile == Some(0) }

  /** Whatever the rules say: an untouchable file gets no work, and an HDR or Dolby Vision file no video work. */
  lemma NoPolicyOverridesAnExclusion(f: Facts, rules: seq<Rule>)
    ensures Untouchable(f) ==> Evaluate(f, rules) == Decision(Quarantined, None, None)
    ensures f.isHdr || f.isDovi ==>
      Evaluate(f, rules).video.None? && Evaluate(f, rules).class_ !in {VideoOnly, AudioThenVideo}
  {
  }

  /** The class names exactly the stages that are planned; nothing but those two classes plans neither. */
  lemma ClassSaysTheStages(f: Facts, rules: seq<Rule>)
    ensures
      var d := Evaluate(f, rules);
      && (d.audio.Some? <==> d.class_ in {AudioOnly, AudioThenVideo})
      && (d.video.Some? <==> d.class_ in {VideoOnly, AudioThenVideo})
  {
  }

  /** A rule put after one that already fires for the same stage never changes what is decided, unless it
   *  stops the evaluation.
   */
  lemma LaterRulesYield(f: Facts, rules: seq<Rule>, extra: Rule)
    requires !Stopping.Covers(extra.then_)
    requires First(rules, f, PlansAudio) < |rules| && First(rules, f, PlansVideo) < |rules|
    ensures Evaluate(f, rules + [extra]) == Evaluate(f, rules)
  {
    forall kind: Kind
      ensures First(rules + [extra], f, kind) ==
        if First(rules, f, kind) < |rules| || Fires(extra, f, kind) then First(rules, f, kind) else |rules| + 1
    {
      FirstOfMore(rules, extra, f, kind);
    }
  }

  lemma {:induction false} FirstOfMore(rules: seq<Rule>, extra: Rule, f: Facts, kind: Kind)
    ensures First(rules + [extra], f, kind) ==
      if First(rules, f, kind) < |rules| || Fires(extra, f, kind) then First(rules, f, kind) else |rules| + 1
  {
    if rules == [] {
      assert rules + [extra] == [extra];
    } else {
      assert (rules + [extra])[1..] == rules[1..] + [extra];
      FirstOfMore(rules[1..], extra, f, kind);
    }
  }

  // ---- What the rules decide

  predicate PartAt(part: string, s: string, i: nat) { i + |part| <= |s| && s[i..i + |part|] == part }

  ghost predicate Within(part: string, s: string) { exists i: nat :: PartAt(part, s, i) }

  /** What a match asks of the facts: each of its lists that is not empty names something the file has, each of its
   *  bounds is reached, a width or bit rate that is not known counting as none, and each of its flags agrees.
   */
  ghost predicate Asks(m: Match, f: Facts) {
    && (m.videoCodecIn == [] || exists c | c in m.videoCodecIn :: f.videoCodec == Some(c))
    && (m.audioCodecAny == [] || exists c, w | c in f.audioCodecs && w in m.audioCodecAny :: Within(w, c))
    && (m.minWidth == None || m.minWidth == Some(0) || (f.width.Some? && m.minWidth.value <= f.width.value))
    && (m.minBitRateBps == None || m.minBitRateBps == Some(0)
        || (f.bitRateBps.Some? && m.minBitRateBps.value <= f.bitRateBps.value))
    && (m.minSizeBytes == None || m.minSizeBytes.value <= f.sizeBytes)
    && (m.isHdr == None || m.isHdr == Some(f.isHdr)) && (m.isDovi == None || m.isDovi == Some(f.isDovi))
  }

  lemma ContainsExactlyWithin(s: string, part: string)
    ensures Contains(s, part) <==> Within(part, s)
  {
    if Contains(s, part) {
      var i :| 0 <= i <= |s| && part <= s[i..];
      assert s[i..i + |part|] == s[i..][..|part|];
      assert PartAt(part, s, i);
    }
    if Within(part, s) {
      var i: nat :| PartAt(part, s, i);
      assert s[i..][..|part|] == part;
      assert part <= s[i..];
    }
  }

  lemma MatchesExactlyWhenAsked(m: Match, f: Facts)
    ensures m.Matches(f) <==> Asks(m, f)
  {
    forall c, w | c in f.audioCodecs && w in m.audioCodecAny ensures Contains(c, w) <==> Within(w, c) {
      ContainsExactlyWithin(c, w);
    }
    assert f.videoCodec.Some? ==> f.videoCodec == Some(f.videoCodec.value);
    if m.Matches(f) {
      if m.audioCodecAny != [] {
        var c, w :| c in f.audioCodecs && w in m.audioCodecAny && Contains(c, w);
        assert Within(w, c);
      }
    }
    if Asks(m, f) {
      if m.audioCodecAny != [] {
        var c, w :| c in f.audioCodecs && w in m.audioCodecAny && Within(w, c);
        assert Contains(c, w);
      }
    }
  }

  ghost predicate Calls(r: Rule, f: Facts, kind: Kind) { Asks(r.when, f) && kind.Covers(r.then_) }

  ghost predicate IsFirst(rules: seq<Rule>, f: Facts, kind: Kind, i: nat) {
    i < |rules| && Calls(rules[i], f, kind) && forall k | 0 <= k < i :: !Calls(rules[k], f, kind)
  }

  ghost predicate NoneCalls(rules: seq<Rule>, f: Facts, kind: Kind) {
    forall k | 0 <= k < |rules| :: !Calls(rules[k], f, kind)
  }

  lemma FirstIs(rules: seq<Rule>, f: Facts, kind: Kind, i: nat)
    ensures IsFirst(rules, f, kind, i) ==> First(rules, f, kind) == i
    ensures NoneCalls(rules, f, kind) ==> First(rules, f, kind) == |rules|
  {
    FirstIsFirst(rules, f, kind);
    forall k | 0 <= k < |rules| ensures Fires(rules[k], f, kind) <==> Calls(rules[k], f, kind) {
      MatchesExactlyWhenAsked(rules[k].when, f);
    }
  }

  /** Of a file that may be touched: the first rule that stops decides alone. */
  lemma TheFirstStopDecides(f: Facts, rules: seq<Rule>, i: nat)
    requires !Untouchable(f) && IsFirst(rules, f, Stopping, i)
    ensures Evaluate(f, rules) == Decision(if rules[i].then_.Skip? then Nothing else Quarantined, None, None)
  {
    FirstIs(rules, f, Stopping, i);
  }

  /** If none stops, audio is planned by the first rule for it, and not at all if there is none. */
  lemma TheFirstAudioRuleDecides(f: Facts, rules: seq<Rule>, i: nat)
    requires !Untouchable(f) && NoneCalls(rules, f, Stopping)
    ensures IsFirst(rules, f, PlansAudio, i) ==>
      Evaluate(f, rules).audio == Some(AudioPlan(rules[i].then_.codec, rules[i].then_.bitrate))
    ensures NoneCalls(rules, f, PlansAudio) ==> Evaluate(f, rules).audio == None
  {
    FirstIs(rules, f, Stopping, i);
    FirstIs(rules, f, PlansAudio, i);
  }

  /** And video by the first rule for it, at the depth of the source or eight bits if that is not known; but not if
   *  the file is HDR or Dolby Vision, nor if a rule before it forbids video.
   */
  lemma TheFirstVideoRuleDecides(f: Facts, rules: seq<Rule>, i: nat)
    requires !Untouchable(f) && NoneCalls(rules, f, Stopping)
    ensures IsFirst(rules, f, PlansVideo, i) ==>
      Evaluate(f, rules).video ==
        if f.isHdr || f.isDovi || exists k | 0 <= k < i :: Calls(rules[k], f, Vetoing) then None
        else Some(VideoPlan(rules[i].then_.encoderPreference, rules[i].then_.quality,
                            if f.videoBitDepth.Some? then f.videoBitDepth.value else Eight))
    ensures NoneCalls(rules, f, PlansVideo) ==> Evaluate(f, rules).video == None
  {
    FirstIs(rules, f, Stopping, i);
    FirstIs(rules, f, PlansVideo, i);
    FirstIsFirst(rules, f, Vetoing);
    forall k | 0 <= k < |rules| ensures Fires(rules[k], f, Vetoing) <==> Calls(rules[k], f, Vetoing) {
      MatchesExactlyWhenAsked(rules[k].when, f);
    }
  }

  // ---- From a decision to a job and an encode

  function Digits(n: nat): string {
    if n < 10 then [(n as char) + '0'] else Digits(n / 10) + [((n % 10) as char) + '0']
  }

  predicate IsNumber(s: string) { forall i | 0 <= i < |s| :: '0' <= s[i] <= '9' }

  function Number(s: string): nat
    requires IsNumber(s)
  {
    if s == "" then 0 else 10 * Number(s[..|s| - 1]) + (s[|s| - 1] - '0') as nat
  }

  lemma {:induction false} DigitsReadBack(n: nat)
    ensures IsNumber(Digits(n)) && Number(Digits(n)) == n
  {
    var s := Digits(n);
    if n < 10 {
      assert s[..0] == "";
    } else {
      DigitsReadBack(n / 10);
      assert s[..|s| - 1] == Digits(n / 10);
    }
  }

  function EncodePlanFor(d: Decision): Option<EncodePlan> {
    match d.class_
    case Nothing => None
    case Quarantined => None
    case VideoOnly =>
      if d.video.None? || d.video.value.encoderPreference == [] then None
      else
        var encoder := d.video.value.encoderPreference[0];
        Some(EncodePlan(encoder, EncoderId.Copy, PixFmtFor(encoder, d.video.value.sourceDepth),
                        ["-crf", Digits(d.video.value.quality), "-map", "0"]))
    case _ =>
      if d.audio.None? then None
      else Some(EncodePlan(EncoderId.Copy, d.audio.value.codec, None, ["-b:a", d.audio.value.bitrate, "-map", "0"]))
  }

  datatype JobSpec = JobSpec(class_: JobClass, size: SizeBucket, requirements: seq<Requirement>)

  function SizeBucketFor(bytes: nat, t: SizeThresholds): SizeBucket {
    if bytes < t.smallMaxBytes then Small else if bytes < t.mediumMaxBytes then Medium else Large
  }

  function NextJob(d: Decision, f: Facts, t: SizeThresholds): Option<JobSpec> {
    var bucket := SizeBucketFor(f.sizeBytes, t);
    match d.class_
    case Nothing => None
    case Quarantined => None
    case VideoOnly =>
      if d.video.None? || d.video.value.encoderPreference == [] then None
      else
        var encoder := d.video.value.encoderPreference[0];
        var gpu := encoder == HevcNvenc;
        var decode := if f.videoCodec.None? then []
                      else [NeedsDecoder(DecoderTriple(f.videoCodec.value, "", d.video.value.sourceDepth, Software))];
        Some(JobSpec(if gpu then VideoGpu else VideoCpu, bucket,
                     [NeedsClass(if gpu then Gpu else Cpu), NeedsEncoder(encoder), NeedsMuxer(Matroska)] + decode))
    case _ =>
      if d.audio.None? then None
      else Some(JobSpec(JobClass.Audio, bucket,
                        [NeedsClass(AgentClass.Audio), NeedsEncoder(d.audio.value.codec), NeedsMuxer(Matroska)]))
  }

  /** For any decision there is a job exactly when there is an encode, and the one encoder the job demands
   *  of an agent is the one the encode runs: everything else is copied.
   */
  lemma JobAndEncodeAgree(d: Decision, f: Facts, t: SizeThresholds)
    ensures NextJob(d, f, t).Some? <==> EncodePlanFor(d).Some?
    ensures NextJob(d, f, t).Some? ==>
      var job, plan := NextJob(d, f, t).value, EncodePlanFor(d).value;
      && (forall e :: NeedsEncoder(e) in job.requirements <==>
            e == if job.class_ == JobClass.Audio then plan.audioCodec else plan.videoCodec)
      && (job.class_ == JobClass.Audio ==> plan.videoCodec == EncoderId.Copy && plan.pixFmt.None?)
      && (job.class_ != JobClass.Audio ==> plan.audioCodec == EncoderId.Copy)
  {
    if NextJob(d, f, t).Some? {
      var reqs := NextJob(d, f, t).value.requirements;
      var ran := if NextJob(d, f, t).value.class_ == JobClass.Audio then EncodePlanFor(d).value.audioCodec
                 else EncodePlanFor(d).value.videoCodec;
      assert reqs[1] == NeedsEncoder(ran);
    }
  }

  /** An encode is told the quality or the bit rate that was decided on, and keeps every stream. */
  lemma EncodesAreToldWhatWasDecided(d: Decision)
    requires EncodePlanFor(d).Some?
    ensures
      var args := EncodePlanFor(d).value.extraArgs;
      && |args| == 4 && args[2..] == ["-map", "0"]
      && (d.class_ == VideoOnly ==>
            args[0] == "-crf" && IsNumber(args[1]) && Number(args[1]) == d.video.value.quality)
      && (d.class_ != VideoOnly ==> args[0] == "-b:a" && args[1] == d.audio.value.bitrate)
  {
    if d.class_ == VideoOnly { DigitsReadBack(d.video.value.quality); }
  }

  /** Video work whose first choice is a video encoder is always planned.  A pinned pixel format has exactly
   *  the source's bit depth, and there is none exactly when the source is 12-bit.
   */
  lemma DepthIsPreservedOrUnpinned(f: Facts, rules: seq<Rule>)
    requires
      var d := Evaluate(f, rules);
      && d.class_ == VideoOnly && d.video.value.encoderPreference != []
      && d.video.value.encoderPreference[0].IsVideo()
    ensures
      var plan := EncodePlanFor(Evaluate(f, rules));
      && plan.Some?
      && (plan.value.pixFmt.None? <==> DepthOf(f) == Twelve)
      && (plan.value.pixFmt.Some? ==> plan.value.pixFmt.value.Bits() == DepthOf(f).Bits())
      && (plan.value.pixFmt == Some(P010le) <==> plan.value.videoCodec == HevcNvenc && DepthOf(f) == Ten)
  {
    ClassSaysTheStages(f, rules);
  }

  // ---- The built-in policy

  const EMPTY_MATCH: Match := Match([], [], None, None, None, None, None)

  const DEFAULT_SPACE_SAVER: seq<Rule> := [
    Rule("convert lossless and opus audio to eac3",
         EMPTY_MATCH.(audioCodecAny := ["truehd", "dts", "flac", "pcm", "mlp", "opus"]),
         EncodeAudio(Eac3, "640k")),
    Rule("re-encode non-hevc video above 2 Mbps",
         EMPTY_MATCH.(videoCodecIn := ["h264", "mpeg2video", "vc1"], minBitRateBps := Some(2_000_000)),
         EncodeVideo([HevcNvenc, Libx265], 22)),
    Rule("re-encode av1 on cpu only",
         EMPTY_MATCH.(videoCodecIn := ["av1"]),
         EncodeVideo([Libx265], 22))
  ]

  function CodecMade(e: EncoderId): string {
    match e
    case HevcNvenc => "hevc"
    case Libx265 => "hevc"
    case Libx264 => "h264"
    case Eac3 => "eac3"
    case Ac3 => "ac3"
    case Aac => "aac"
    case Copy => "copy"
  }

  /** What a new probe may find once the encode a job describes has been installed: the stages that were
   *  run have their new codec, the ones that were copied are as they were, and all else may differ.
   */
  predicate Encoded(f: Facts, g: Facts, plan: EncodePlan) {
    && (if plan.videoCodec == EncoderId.Copy then g.videoCodec == f.videoCodec
        else g.videoCodec == Some(CodecMade(plan.videoCodec)))
    && (if plan.audioCodec == EncoderId.Copy then g.audioCodecs == f.audioCodecs
        else forall c | c in g.audioCodecs :: c == CodecMade(plan.audioCodec))
  }

  predicate Unwanted(f: Facts) {
    exists c, w | c in f.audioCodecs && w in DEFAULT_SPACE_SAVER[0].when.audioCodecAny :: Contains(c, w)
  }

  predicate Oversized(f: Facts) {
    && !f.isHdr && !f.isDovi && f.videoCodec.Some?
    && ((f.videoCodec.value in {"h264", "mpeg2video", "vc1"} && Or0(f.bitRateBps) >= 2_000_000)
        || f.videoCodec.value == "av1")
  }

  lemma FirstOfThree(f: Facts, kind: Kind)
    ensures
      var r := DEFAULT_SPACE_SAVER;
      First(r, f, kind) ==
        if Fires(r[0], f, kind) then 0 else if Fires(r[1], f, kind) then 1 else if Fires(r[2], f, kind) then 2 else 3
  {
    var r := DEFAULT_SPACE_SAVER;
    assert r[1..][0] == r[1] && r[1..][1..] == r[2..] && r[2..][0] == r[2];
    assert r[2..][1..] == [] && |r[1..]| == 2 && |r[2..]| == 1;
    assert First(r[2..][1..], f, kind) == 0;
    assert First(r[2..], f, kind) == if Fires(r[2], f, kind) then 0 else 1;
  }

  /** The built-in policy owes audio work for the unwanted codecs, and video work for what is oversized. */
  lemma DefaultMeans(f: Facts)
    requires !f.IsExcluded()
    ensures Evaluate(f, DEFAULT_SPACE_SAVER).class_ == ClassOf(Unwanted(f), Oversized(f))
    ensures Unwanted(f) ==> Evaluate(f, DEFAULT_SPACE_SAVER).audio == Some(AudioPlan(Eac3, "640k"))
    ensures Oversized(f) ==>
      Evaluate(f, DEFAULT_SPACE_SAVER).video.value.encoderPreference ==
        if f.videoCodec == Some("av1") then [Libx265] else [HevcNvenc, Libx265]
  {
    forall kind: Kind {
      FirstOfThree(f, kind);
    }
    var r := DEFAULT_SPACE_SAVER;
    assert r[0].when.Matches(f) <==> Unwanted(f);
    assert r[1].when.Matches(f) <==>
      f.videoCodec.Some? && f.videoCodec.value in ["h264", "mpeg2video", "vc1"] && Or0(f.bitRateBps) >= 2_000_000;
    assert r[2].when.Matches(f) <==> f.videoCodec.Some? && f.videoCodec.value in ["av1"];
  }

  /** The built-in policy hands out a 12-bit file it owes nothing but video work: the encode is planned, and
   *  nothing pins its depth.
   */
  lemma TwelveBitsAreEncodedUnpinned(f: Facts)
    requires !f.IsExcluded() && Oversized(f) && !Unwanted(f) && DepthOf(f) == Twelve
    ensures
      var d := Evaluate(f, DEFAULT_SPACE_SAVER);
      d.class_ == VideoOnly && EncodePlanFor(d).Some? && EncodePlanFor(d).value.pixFmt.None?
  {
    DefaultMeans(f);
    DepthIsPreservedOrUnpinned(f, DEFAULT_SPACE_SAVER);
  }

  /** Such a file: 12-bit H.264 at nine megabits a second, with no sound. */
  const TWELVE_BIT_FILE: Facts := Facts(
    None, 0, Some(9_000_000), Some("h264"), Some(Twelve), None, false, false, None, false, [])

  lemma ATwelveBitFileIsEncodedUnpinned()
    ensures
      var d := Evaluate(TWELVE_BIT_FILE, DEFAULT_SPACE_SAVER);
      d.class_ == VideoOnly && EncodePlanFor(d).Some? && EncodePlanFor(d).value.pixFmt.None?
  {
    TwelveBitsAreEncodedUnpinned(TWELVE_BIT_FILE);
  }

  lemma Eac3IsWanted(w: string)
    requires w in DEFAULT_SPACE_SAVER[0].when.audioCodecAny
    ensures !Contains("eac3", w)
  {
    var s := "eac3";
    assert s[0..][0] == 'e' && s[1..][0] == 'a' && s[2..][0] == 'c' && s[3..][0] == '3' && s[4..] == "";
    assert w[0] in {'t', 'd', 'f', 'p', 'm', 'o'};
  }

  /** Finding unwanted audio and owing audio work are the same thing, on files that are not excluded. */
  lemma AudioWorkIsConversion(f: Facts)
    requires !f.IsExcluded()
    ensures Evaluate(f, DEFAULT_SPACE_SAVER).audio.Some? <==> f.NeedsAudioConversion()
  {
    DefaultMeans(f);
    ClassSaysTheStages(f, DEFAULT_SPACE_SAVER);
    forall c, n | c in f.audioCodecs && n in AUDIO_NEEDING_CONVERSION && Contains(c, n)
      ensures Unwanted(f)
    {
      if n in ["pcm_s16le", "pcm_s24le"] {
        var i :| 0 <= i <= |c| && n <= c[i..];
        assert "pcm" == n[..3];
        assert "pcm" <= c[i..];
        assert Contains(c, "pcm") && "pcm" in DEFAULT_SPACE_SAVER[0].when.audioCodecAny;
      } else {
        assert n in DEFAULT_SPACE_SAVER[0].when.audioCodecAny;
      }
    }
    forall c, w | c in f.audioCodecs && w in DEFAULT_SPACE_SAVER[0].when.audioCodecAny && Contains(c, w)
      ensures f.NeedsAudioConversion()
    {
      assert w in AUDIO_NEEDING_CONVERSION;
    }
  }

  /** The job the built-in policy owes a file, if any. */
  function Owed(f: Facts, t: SizeThresholds): Option<JobSpec> { NextJob(Evaluate(f, DEFAULT_SPACE_SAVER), f, t) }

  /** Once its audio is converted a file is owed video work or none. */
  lemma AudioIsOwedOnce(f: Facts, g: Facts, t: SizeThresholds)
    requires Owed(f, t).Some? && Owed(f, t).value.class_ == JobClass.Audio
    requires Encoded(f, g, EncodePlanFor(Evaluate(f, DEFAULT_SPACE_SAVER)).value)
    ensures !Unwanted(g)
  {
    DefaultMeans(f);
    forall c, w | c in g.audioCodecs && w in DEFAULT_SPACE_SAVER[0].when.audioCodecAny ensures !Contains(c, w) {
      assert c == "eac3";
      Eac3IsWanted(w);
    }
  }

  /** Once its video is re-encoded a file is not owed video work again, and its audio is as it was. */
  lemma VideoIsOwedOnce(f: Facts, g: Facts, t: SizeThresholds)
    requires Owed(f, t).Some? && Owed(f, t).value.class_ != JobClass.Audio
    requires Encoded(f, g, EncodePlanFor(Evaluate(f, DEFAULT_SPACE_SAVER)).value)
    ensures !Oversized(g) && (Unwanted(g) <==> Unwanted(f)) && !Unwanted(f)
  {
    DefaultMeans(f);
    assert g.videoCodec == Some("hevc");
  }

  lemma NothingIsOwedAfterVideo(g: Facts, h: Facts, t: SizeThresholds)
    requires Owed(g, t).Some? && Owed(g, t).value.class_ != JobClass.Audio
    requires Encoded(g, h, EncodePlanFor(Evaluate(g, DEFAULT_SPACE_SAVER)).value)
    ensures Owed(h, t).None? && Evaluate(h, DEFAULT_SPACE_SAVER).class_ in {Nothing, Quarantined}
  {
    VideoIsOwedOnce(g, h, t);
    if !h.IsExcluded() { DefaultMeans(h); }
  }

  /** Under the built-in policy a file takes at most two jobs, and audio comes first: whatever else each
   *  probe finds, a second job is never for audio, and there is no third.
   */
  lemma TwoPassesAreEnough(f: Facts, g: Facts, h: Facts, t: SizeThresholds)
    requires Owed(f, t).Some? && Encoded(f, g, EncodePlanFor(Evaluate(f, DEFAULT_SPACE_SAVER)).value)
    requires Owed(g, t).Some? ==> Encoded(g, h, EncodePlanFor(Evaluate(g, DEFAULT_SPACE_SAVER)).value)
    ensures Owed(g, t).Some? ==> Owed(f, t).value.class_ == JobClass.Audio && Owed(g, t).value.class_ != JobClass.Audio
    ensures Owed(g, t).Some? ==> Owed(h, t).None? && Evaluate(h, DEFAULT_SPACE_SAVER).class_ in {Nothing, Quarantined}
  {
    if Owed(g, t).Some? {
      DefaultMeans(f);
      DefaultMeans(g);
      if Owed(f, t).value.class_ == JobClass.Audio {
        AudioIsOwedOnce(f, g, t);
        NothingIsOwedAfterVideo(g, h, t);
      } else {
        VideoIsOwedOnce(f, g, t);
      }
    }
  }
}
