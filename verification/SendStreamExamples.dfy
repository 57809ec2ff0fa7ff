/** Concrete runs of an audio send stream in which a mirror fails: the inputs that the exact
    conditions of the other modules rule out. */
module SendStreamExamples {
  import opened Basics
  import opened RtpExtensions
  import opened SendStreamModel
  import opened SendStreamSettings
  import opened SendStreamEncoder
  import opened SendStreamRates
  import opened SendStreamOverhead
  import opened SendStreamTarget
  import opened SendStreamSurvival
  import opened SendStreamAdaptor

  const TRIALS := Trials(false, false, true, None, None, 0, None, None)

  const OPUS := AudioFormat("opus", 48000, 1, map[])

  const SPEC := SendCodecSpec(111, OPUS, false, false, false, None, None, None)

  /** Bitrate limits and feedback, so that the stream takes part in the allocation. */
  const FEEDBACK := [RtpExtension(TRANSPORT_SEQUENCE_NUMBER_URI, 3, false)]

  const BASE := DEFAULT_CONFIG.(extensions := FEEDBACK, limits := Limits(10_000, 65_000, 1.0),
                                sendCodecSpec := Some(SPEC))

  const SHORT_FRAMES :=
    Surroundings(Some(Created(48000, 1, 2)), false, 50, Some(FrameLengths(20_000, 120_000)), None, 0, 0)
  const LONG_FRAMES := SHORT_FRAMES.(frameLengths := Some(FrameLengths(60_000, 60_000)))

  function Numbers(k: ExtensionKind): int {
    match k
    case AudioLevel => 1
    case AbsSendTime => 2
    case TransportSequenceNumber => 3
    case Mid => 4
    case AbsCaptureTime => 5
  }

  lemma FeedbackIds()
    ensures IdsOf(FEEDBACK) == ExtensionIds(0, 0, 0, 3, 0, 0, 0)
  {
    UrisDiffer();
    forall uri
      ensures LastId(FEEDBACK, uri) == if uri == TRANSPORT_SEQUENCE_NUMBER_URI then 3 else 0
    {
      LastIdStep(FEEDBACK, 0, uri);
      assert FEEDBACK[..1] == FEEDBACK && FEEDBACK[..0] == [];
    }
    assert ABS_SEND_TIME_URI != TRANSPORT_SEQUENCE_NUMBER_URI && ABS_CAPTURE_TIME_URI != TRANSPORT_SEQUENCE_NUMBER_URI;
    assert AUDIO_LEVEL_URI != TRANSPORT_SEQUENCE_NUMBER_URI && MID_URI != TRANSPORT_SEQUENCE_NUMBER_URI;
    assert RID_URI != TRANSPORT_SEQUENCE_NUMBER_URI && REPAIRED_RID_URI != TRANSPORT_SEQUENCE_NUMBER_URI;
  }

  /** Configurations that differ from BASE in the codec or the transformer only. */
  ghost predicate LikeBase(c: Config) {
    c == BASE.(sendCodecSpec := c.sendCodecSpec, frameTransformer := c.frameTransformer) && c.sendCodecSpec.Some?
  }

  lemma LinksAccepted(l: Links, previous: Config, next: Config, first: bool)
    requires LikeBase(next) && Numbered(Numbers, l.ids)
    ensures ConfigureLinks(TRIALS, l, previous, next, first).Running?
    ensures Numbered(Numbers, ConfigureLinks(TRIALS, l, previous, next, first).value.ids)
  {
    hide ConfigureLinks;
    FeedbackIds();
    FixedNumberingIsAccepted(Numbers, TRIALS, l, previous, next, first);
  }

  /** Construction succeeds and leaves a bare or RED-wrapped encoder with the ranges read. */
  lemma Constructed(c: Config, env: Surroundings)
    requires LikeBase(c) && c.sendCodecSpec.value.cngPayloadType.None?
    requires env in [SHORT_FRAMES, LONG_FRAMES]
    ensures var s := Construct(TRIALS, c, env);
            && s.Running? && s.value.config == c && s.value.trials == TRIALS && !s.value.sending
            && s.value.rates.overhead == 50 && s.value.rates.transportOverhead == 0 && !s.value.rates.registered
            && s.value.rates.ranges == Ranges(env.frameLengths, None)
            && s.value.codec.encoder.Some?
            && Numbered(Numbers, s.value.links.ids)
  {
    hide ConfigureLinks, Numbered, Lower, AllocationFor;
    assert Numbered(Numbers, NEW_LINKS.ids) by {
      NothingNumbered(Numbers);
    }
    LinksAccepted(NEW_LINKS, DEFAULT_CONFIG, c, true);
  }

  lemma RatesOf50()
    ensures Rate(50, 20_000) == 20_000 && Rate(50, 120_000) == 3_333 && Rate(50, 60_000) == 6_666
  {
  }

  lemma TwoSteps(c: Config, env: Surroundings, a: Op, b: Op)
    ensures Run(TRIALS, c, env, [a]) ==
            var s := Construct(TRIALS, c, env); if s.Crashed? then Crashed else Step(s.value, a)
    ensures Run(TRIALS, c, env, [a, b]) ==
            var s := Run(TRIALS, c, env, [a]); if s.Crashed? then Crashed else Step(s.value, b)
  {
    hide Construct, Step;
    assert [a][..0] == [] && [a, b][..1] == [a];
    assert Run(TRIALS, c, env, []) == Construct(TRIALS, c, env);
  }

  // ---------------------------------------------------------------------
  // A registration that is not refreshed
  // ---------------------------------------------------------------------

  /** The same codec under another payload type, whose encoder uses 60 ms frames only. */
  const REPLACED := BASE.(sendCodecSpec := Some(SPEC.(payloadType := 112)))

  /** Replacing the encoder of a registered stream by one with other frame lengths leaves the
      allocator with the bounds of the old one. */
  lemma StaleAllocation()
    ensures var s := Run(TRIALS, BASE, SHORT_FRAMES, [OpStart(0), OpReconfigure(REPLACED, LONG_FRAMES)]);
            && s.Running? && s.value.rates.registered
            && s.value.rates.allocation == Some(Allocation(13_333, 85_000, 3_333, 1.0))
            && AllocationFor(TRIALS, s.value.config.limits, s.value.rates.overhead, s.value.rates.ranges) ==
               Some(Allocation(16_666, 71_666, 6_666, 1.0))
  {
    hide Construct, ConfigureStream, Start, Run;
    Constructed(BASE, SHORT_FRAMES);
    var s := Construct(TRIALS, BASE, SHORT_FRAMES).value;
    TwoSteps(BASE, SHORT_FRAMES, OpStart(0), OpReconfigure(REPLACED, LONG_FRAMES));
    Started(s, 0);
    Replaced(Start(s, 0).value);
  }

  lemma Started(s: Stream, answer: nat)
    requires s.trials == TRIALS && LikeBase(s.config) && !s.sending && s.rates.overhead == 50
    requires s.rates.ranges == Ranges(SHORT_FRAMES.frameLengths, None) && s.codec.encoder.Some?
    ensures var r := Start(s, answer);
            && r.Running? && r.value.sending && r.value.config == s.config && r.value.trials == TRIALS
            && r.value.rates.overhead == 50 && r.value.rates.registered
            && r.value.rates.ranges == s.rates.ranges && r.value.links == s.links
            && r.value.codec.encoder.Some?
            && r.value.rates.transportOverhead == s.rates.transportOverhead
            && r.value.rates.allocation == Some(Allocation(13_333, 85_000, 3_333, 1.0))
    ensures StartsAllocated(s) && Forwarded(s, 0) == 13_333
  {
    hide Rate;
    FeedbackIds();
    RatesOf50();
  }

  lemma Replaced(s: Stream)
    requires s.trials == TRIALS && s.config == BASE && s.sending && s.rates.registered
    requires s.rates.overhead == 50 && s.rates.transportOverhead == 0 && s.codec.encoder.Some?
    requires s.rates.allocation == Some(Allocation(13_333, 85_000, 3_333, 1.0))
    requires Numbered(Numbers, s.links.ids)
    ensures var r := ConfigureStream(s, REPLACED, false, LONG_FRAMES);
            && r.Running? && r.value.rates.registered
            && r.value.rates.allocation == Some(Allocation(13_333, 85_000, 3_333, 1.0))
            && AllocationFor(TRIALS, r.value.config.limits, r.value.rates.overhead, r.value.rates.ranges) ==
               Some(Allocation(16_666, 71_666, 6_666, 1.0))
  {
    hide ConfigureLinks, Numbered, Lower, Rate;
    LinksAccepted(s.links, BASE, REPLACED, false);
    RatesOf50();
  }

  // ---------------------------------------------------------------------
  // A target that is overridden
  // ---------------------------------------------------------------------

  const WITH_TARGET := BASE.(sendCodecSpec := Some(SPEC.(targetBitrateBps := Some(32_000))))

  /** Starting a stream whose configuration has a target of 32 kbps gives the encoder another
      one: the allocator, which has no bandwidth estimate yet, answers the registration with
      a rate of zero, and the stream forwards its minimum. */
  lemma TargetOverridden()
    ensures var s := Run(TRIALS, WITH_TARGET, SHORT_FRAMES, [OpStart(0)]);
            && s.Running? && s.value.codec.encoder.Some? && Target(s.value.codec) == Some(13_333)
            && ConfiguredTarget(s.value.config) == Some(32_000)
            && !TargetKnown(s.value.codec, s.value.config)
  {
    hide Construct, Run, Step, Start, Forwarded, Target, StartsAllocated;
    Constructed(WITH_TARGET, SHORT_FRAMES);
    var s := Construct(TRIALS, WITH_TARGET, SHORT_FRAMES).value;
    Started(s, 0);
    TwoSteps(WITH_TARGET, SHORT_FRAMES, OpStart(0), OpStop);
    StartIsStep(s, 0);
    StepTarget(s, OpStart(0));
  }

  lemma StartIsStep(s: Stream, answer: nat)
    ensures Step(s, OpStart(answer)) == Start(s, answer)
  {
  }

  // ---------------------------------------------------------------------
  // A RED encoder that is lost
  // ---------------------------------------------------------------------

  const WITH_RED := BASE.(sendCodecSpec := Some(SPEC.(redPayloadType := Some(63))))
  const WITH_RED_AND_CNG := BASE.(sendCodecSpec := Some(SPEC.(redPayloadType := Some(63), cngPayloadType := Some(13))))

  /** Adding comfort noise to a stream that uses RED takes the RED encoder away. */
  lemma RedIsLost()
    ensures var s := Run(TRIALS, WITH_RED, SHORT_FRAMES, [OpReconfigure(WITH_RED_AND_CNG, SHORT_FRAMES)]);
            && s.Running? && s.value.codec.encoder.Some?
            && s.value.codec.encoder.value.Cng? && s.value.codec.encoder.value.inner.Speech?
            && !CodecShaped(s.value.codec, s.value.config)
  {
    hide Construct, Run, Step;
    var op := OpReconfigure(WITH_RED_AND_CNG, SHORT_FRAMES);
    Constructed(WITH_RED, SHORT_FRAMES);
    TwoSteps(WITH_RED, SHORT_FRAMES, op, OpStop);
    RedInstalled();
    NoiseAdded(Construct(TRIALS, WITH_RED, SHORT_FRAMES).value);
  }

  lemma RedInstalled()
    ensures var s := Construct(TRIALS, WITH_RED, SHORT_FRAMES);
            s.Running? ==>
              && s.value.codec.encoder.Some? && s.value.codec.encoder.value.Red?
              && s.value.codec.encoder.value.inner.Speech?
              && s.value.codec.encoder.value.inner.channels == 1
              && s.value.codec.encoder.value.inner.max10MsFrames == 2
  {
    hide ConfigureLinks, Lower, AllocationFor;
  }

  lemma NoiseAdded(s: Stream)
    requires s.trials == TRIALS && s.config == WITH_RED && !s.sending && Numbered(Numbers, s.links.ids)
    requires s.codec.encoder.Some? && s.codec.encoder.value.Red? && s.codec.encoder.value.inner.Speech?
    requires s.codec.encoder.value.inner.channels == 1 && s.codec.encoder.value.inner.max10MsFrames == 2
    requires !s.rates.registered
    ensures var r := Step(s, OpReconfigure(WITH_RED_AND_CNG, SHORT_FRAMES));
            && r.Running? && r.value.codec.encoder.Some? && r.value.config == WITH_RED_AND_CNG
            && r.value.codec.encoder.value.Cng? && r.value.codec.encoder.value.inner.Speech?
            && !CodecShaped(r.value.codec, r.value.config)
  {
    hide ConfigureLinks, Numbered, Lower, AllocationFor;
    LinksAccepted(s.links, WITH_RED, WITH_RED_AND_CNG, false);
  }

  // ---------------------------------------------------------------------
  // A transformer that stays
  // ---------------------------------------------------------------------

  const TRANSFORMED := BASE.(frameTransformer := Some(7))

  /** Taking the frame transformer away leaves it in place. */
  lemma TransformerStays()
    ensures var s := Run(TRIALS, TRANSFORMED, SHORT_FRAMES, [OpReconfigure(BASE, SHORT_FRAMES)]);
            s.Running? && s.value.config.frameTransformer == None && s.value.links.frameTransformer == Some(7)
  {
    hide Construct, Run, ConfigureStream;
    var op := OpReconfigure(BASE, SHORT_FRAMES);
    Constructed(TRANSFORMED, SHORT_FRAMES);
    TwoSteps(TRANSFORMED, SHORT_FRAMES, op, OpStop);
    TransformerRemoved(Construct(TRIALS, TRANSFORMED, SHORT_FRAMES).value);
    TransformerIsLastSet(TRIALS, TRANSFORMED, SHORT_FRAMES, [op]);
    LastOfTwo(op);
  }

  lemma TransformerRemoved(s: Stream)
    requires s.trials == TRIALS && s.config == TRANSFORMED && !s.sending && Numbered(Numbers, s.links.ids)
    requires !s.rates.registered && s.codec.encoder.Some?
    ensures ConfigureStream(s, BASE, false, SHORT_FRAMES).Running?
  {
    hide ConfigureLinks, Numbered, Lower, AllocationFor;
    LinksAccepted(s.links, TRANSFORMED, BASE, false);
  }

  lemma LastOfTwo(op: Op)
    requires op == OpReconfigure(BASE, SHORT_FRAMES)
    ensures Configs(TRANSFORMED, [op]) == [TRANSFORMED, BASE]
    ensures LastTransformer([TRANSFORMED, BASE]) == Some(7)
  {
    assert [op][..0] == [];
    assert [TRANSFORMED, BASE][..1] == [TRANSFORMED];
  }

  // ---------------------------------------------------------------------
  // An adaptor that is not enabled
  // ---------------------------------------------------------------------

  const NOISY := DEFAULT_CONFIG.(sendCodecSpec :=
    Some(SendCodecSpec(0, G711, false, false, false, Some(13), None, None)))
  const NOISY_ADAPTED := NOISY.(audioNetworkAdaptor := Some("adaptor"))
  const ACCEPTING := Surroundings(Some(Created(8000, 1, 2)), true, 12, None, None, 0, 0)

  /** Asking for an adaptor on a stream with comfort noise has no effect, although the speech
      encoder would accept it. */
  lemma AdaptorNotEnabled(trials: Trials)
    ensures var s := Run(trials, NOISY, ACCEPTING, [OpReconfigure(NOISY_ADAPTED, ACCEPTING)]);
            && s.Running? && s.value.config.audioNetworkAdaptor == Some("adaptor")
            && s.value.codec.encoder.Some? && Adaptor(s.value.codec) == None
  {
    hide Construct, Step, Survives, Adaptor, StepAdapts;
    var op := OpReconfigure(NOISY_ADAPTED, ACCEPTING);
    ExampleRuns(trials, NOISY, ACCEPTING);
    var s := Construct(trials, NOISY, ACCEPTING).value;
    assert Run(trials, NOISY, ACCEPTING, []) == Running(s) && [op][..0] == [];
    RunMirrors(trials, NOISY, ACCEPTING, []);
    NoisyStream(trials);
    NoisySurvives(s);
    StepSurvivesIff(s, op);
    NoisyDoesNotAdapt(s);
    StepCodec(s, op);
    StepAdaptorStays(s, op);
  }

  lemma NoisyStream(trials: Trials)
    requires Construct(trials, NOISY, ACCEPTING).Running?
    ensures var s := Construct(trials, NOISY, ACCEPTING).value;
            && s.config == NOISY && !s.sending && !s.rates.registered && s.links.ids == map[]
            && s.codec.encoder.Some? && s.codec.encoder.value.HasCng() && Adaptor(s.codec) == None
  {
    hide AllocationFor, Lower;
  }

  lemma NoisySurvives(s: Stream)
    requires s.config == NOISY && !s.sending && !s.rates.registered && s.links.ids == map[]
    ensures Survives(s, OpReconfigure(NOISY_ADAPTED, ACCEPTING))
  {
    hide SameObserved, UsesFeedback, Allocatable, RangesAfter;
  }

  lemma NoisyDoesNotAdapt(s: Stream)
    requires s.config == NOISY && s.codec.encoder.Some? && s.codec.encoder.value.HasCng() && Adaptor(s.codec) == None
    ensures !StepAdapts(s, OpReconfigure(NOISY_ADAPTED, ACCEPTING))
    ensures Recoded(s, OpReconfigure(NOISY_ADAPTED, ACCEPTING)).Running? ==>
              var k := Recoded(s, OpReconfigure(NOISY_ADAPTED, ACCEPTING)).value;
              k.encoder.Some? && Adaptor(k) == None
  {
    hide Lower, SameCodec;
    FormatIff(G711, G711);
    UpdatedAdaptor(s.codec.encoder.value, NOISY, NOISY_ADAPTED, s.rates.overhead, true);
  }

  /** Overhead and rates passed on afterwards leave the adaptor alone. */
  lemma StepAdaptorStays(s: Stream, op: Op)
    requires Step(s, op).Running? && Recoded(s, op).Running? && Recoded(s, op).value.encoder.Some?
    requires Retargeted(TellOverhead(Recoded(s, op).value, s.rates.overhead, Step(s, op).value.rates.overhead),
                        Step(s, op).value.codec)
    ensures Step(s, op).value.codec.encoder.Some?
    ensures Adaptor(Step(s, op).value.codec) == Adaptor(Recoded(s, op).value)
  {
    hide Step, Recoded;
    OverheadReaches(Recoded(s, op).value.encoder.value, Step(s, op).value.rates.overhead);
  }
}
