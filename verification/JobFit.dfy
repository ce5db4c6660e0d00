/** What a decision asks of the agent that is to carry it out. */
module JobFit {
  import opened Optional
  import opened Plans
  import opened Jobs
  import opened Capability
  import opened Dispatch
  import Policy

  /** The agent has verified decoding this codec at this depth in software. */
  ghost predicate Decodes(a: AgentEntry, codec: string, depth: BitDepth) {
    Provides(a, NeedsDecoder(DecoderTriple(codec, "", depth, Software)))
  }

  /** The agent has what it takes to run an encode: the class of agent, the encoder, the container, and for video a
   *  verified decode of the source, where its codec is known.
   */
  ghost predicate CanRun(a: AgentEntry, plan: EncodePlan, f: Policy.Facts, depth: BitDepth) {
    var p := a.capability;
    && Matroska in p.muxers
    && if plan.videoCodec == EncoderId.Copy then AgentClass.Audio in p.classes && plan.audioCodec in p.encoders
       else
         && (if plan.videoCodec == HevcNvenc then Gpu in p.classes else Cpu in p.classes)
         && plan.videoCodec in p.encoders
         && (f.videoCodec.Some? ==> Decodes(a, f.videoCodec.value, depth))
  }

  lemma OneMoreAsked(a: AgentEntry, reqs: seq<Requirement>, r: Requirement)
    ensures (forall q | q in reqs + [r] :: Provides(a, q)) <==> Provides(a, r) && forall q | q in reqs :: Provides(a, q)
  {
    assert r in reqs + [r] && forall q | q in reqs :: q in reqs + [r];
  }

  lemma ThreeAsked(a: AgentEntry, x: Requirement, y: Requirement, z: Requirement)
    ensures (forall q | q in [x, y, z] :: Provides(a, q)) <==> Provides(a, x) && Provides(a, y) && Provides(a, z)
  {
    assert [x, y, z] == [] + [x] + [y] + [z];
    OneMoreAsked(a, [], x);
    OneMoreAsked(a, [] + [x], y);
    OneMoreAsked(a, [] + [x] + [y], z);
  }

  lemma VideoFits(d: Policy.Decision, f: Policy.Facts, t: Policy.SizeThresholds, a: AgentEntry, job: QueuedJob)
    requires d.class_ == Policy.VideoOnly && Policy.NextJob(d, f, t).Some?
    requires d.video.value.encoderPreference[0] != EncoderId.Copy
    requires job.requirements == Policy.NextJob(d, f, t).value.requirements
    ensures (forall r | r in job.requirements :: Provides(a, r)) <==>
      CanRun(a, Policy.EncodePlanFor(d).value, f, d.video.value.sourceDepth)
  {
    var e := d.video.value.encoderPreference[0];
    var three := [NeedsClass(if e == HevcNvenc then Gpu else Cpu), NeedsEncoder(e), NeedsMuxer(Matroska)];
    ThreeAsked(a, three[0], three[1], three[2]);
    if f.videoCodec.Some? {
      OneMoreAsked(a, three, NeedsDecoder(DecoderTriple(f.videoCodec.value, "", d.video.value.sourceDepth, Software)));
    } else {
      assert job.requirements == three;
    }
  }

  lemma AudioFits(d: Policy.Decision, f: Policy.Facts, t: Policy.SizeThresholds, a: AgentEntry, job: QueuedJob)
    requires d.class_ != Policy.VideoOnly && Policy.NextJob(d, f, t).Some?
    requires job.requirements == Policy.NextJob(d, f, t).value.requirements
    ensures (forall r | r in job.requirements :: Provides(a, r)) <==>
      CanRun(a, Policy.EncodePlanFor(d).value, f, Eight)
  {
    ThreeAsked(a, NeedsClass(AgentClass.Audio), NeedsEncoder(d.audio.value.codec), NeedsMuxer(Matroska));
  }

  /** For every file and every rule: of the agents that take work, may install and are not excluded, the job a decision
   *  makes fits exactly those that can run the encode it makes.
   */
  lemma JobsFitExactlyThoseThatCanRunThem(
      f: Policy.Facts, rules: seq<Policy.Rule>, t: Policy.SizeThresholds, a: AgentEntry, job: QueuedJob)
    requires
      var d := Policy.Evaluate(f, rules);
      && Policy.NextJob(d, f, t).Some? && job.requirements == Policy.NextJob(d, f, t).value.requirements
      && (d.class_ == Policy.VideoOnly ==> d.video.value.encoderPreference[0] != EncoderId.Copy)
    requires a.accepting && a.commitEligible && a.id !in job.excludedAgents
    ensures
      var d := Policy.Evaluate(f, rules);
      FitFor(a, job) <==>
        CanRun(a, Policy.EncodePlanFor(d).value, f, if d.class_ == Policy.VideoOnly then Policy.DepthOf(f) else Eight)
  {
    var d := Policy.Evaluate(f, rules);
    Policy.JobAndEncodeAgree(d, f, t);
    if d.class_ == Policy.VideoOnly { VideoFits(d, f, t, a, job); } else { AudioFits(d, f, t, a, job); }
  }

  /** Work for a GPU is what NVENC runs, and a file counts as large from the upper threshold on. */
  lemma JobsAreSortedByWhatTheyTake(d: Policy.Decision, f: Policy.Facts, t: Policy.SizeThresholds)
    requires Policy.NextJob(d, f, t).Some? && t.smallMaxBytes <= t.mediumMaxBytes
    ensures
      var job, plan := Policy.NextJob(d, f, t).value, Policy.EncodePlanFor(d).value;
      && (job.class_ == VideoGpu <==> plan.videoCodec == HevcNvenc)
      && (job.class_ == JobClass.Audio <==> d.class_ in {Policy.AudioOnly, Policy.AudioThenVideo})
      && (job.size == Large <==> t.mediumMaxBytes <= f.sizeBytes)
      && (job.size == Small <==> f.sizeBytes < t.smallMaxBytes)
  {
    Policy.JobAndEncodeAgree(d, f, t);
  }
}
