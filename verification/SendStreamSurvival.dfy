/** When an operation of an audio send stream goes through and when it stops the program, on
    what is known before it. */
module SendStreamSurvival {
  import opened Basics
  import opened RtpExtensions
  import opened SendStreamModel
  import opened SendStreamSettings
  import opened SendStreamEncoder
  import opened SendStreamRates

  // ---------------------------------------------------------------------
  // The codec
  // ---------------------------------------------------------------------

  /** A comfort-noise encoder takes one channel and packets of at most 100 ms. */
  predicate TakesNoise(channels: nat, max10MsFrames: nat) {
    channels == 1 && max10MsFrames <= 10
  }

  /** Reconfiguring the codec goes through: comfort noise is put only on encoders that take
      it, and changed only if there is an encoder. */
  ghost predicate CodecSurvives(e: Option<Encoder>, previous: Config, next: Config, env: Surroundings) {
    next.sendCodecSpec.Some? ==>
      var n := next.sendCodecSpec.value;
      if Replaces(previous, next) then
        env.created.Some? && n.cngPayloadType.Some? ==>
          TakesNoise(env.created.value.channels, env.created.value.max10MsFrames)
      else if previous.sendCodecSpec.None? || n.cngPayloadType == previous.sendCodecSpec.value.cngPayloadType then true
      else
        && e.Some? && e.value.Core().Speech?
        && (n.cngPayloadType.Some? ==>
              TakesNoise(if e.value.Peeled().HasCng() then 1 else e.value.Core().channels,
                         e.value.Core().max10MsFrames))
  }

  lemma NoiseIff(payloadType: int, e: Encoder)
    ensures e.Core().Speech?
    ensures CreateComfortNoise(payloadType, e).Running? <==>
            TakesNoise(if e.HasCng() then 1 else e.Core().channels, e.Core().max10MsFrames)
  {
    LayerProperties(e);
  }

  lemma SetupSurvivesIff(k: Codec, c: Config, overhead: nat, sending: bool, env: Surroundings)
    requires c.sendCodecSpec.Some?
    ensures SetupSendCodec(k, c, overhead, sending, env).Running? <==>
            (env.created.Some? && c.sendCodecSpec.value.cngPayloadType.Some? ==>
               TakesNoise(env.created.value.channels, env.created.value.max10MsFrames))
  {
  }

  lemma KeptSurvivesIff(k: Codec, previous: Config, next: Config, overhead: nat, sending: bool, env: Surroundings)
    requires !CodecUnchanged(previous, next) && !NeedsNewEncoder(previous, next) && k.encoder.Some?
    ensures ReconfigureSendCodec(k, previous, next, overhead, sending, env).Running? <==>
            CodecSurvives(k.encoder, previous, next, env)
  {
    hide SameFormat, SameOptionalSpec, ReconfigureAna, CreateComfortNoise, TakesNoise, SameCodec;
    SpecsOfKept(previous, next);
    ReplacesIff(previous, next);
    var e := k.encoder.value;
    var updated := Updated(e, previous, next, overhead, env.adaptorAccepted);
    UpdatedKeepsLayers(e, previous, next, overhead, env.adaptorAccepted);
    PeeledAlike(e, updated);
    if next.sendCodecSpec.value.cngPayloadType.Some? {
      NoiseIff(next.sendCodecSpec.value.cngPayloadType.value, updated.Peeled());
    }
  }

  lemma PeeledAlike(a: Encoder, b: Encoder)
    requires SameLayers(a, b)
    ensures a.Core().Speech? && b.Peeled().Core().Speech?
    ensures b.Peeled().HasCng() == a.Peeled().HasCng()
    ensures b.Peeled().Core().channels == a.Core().channels
    ensures b.Peeled().Core().max10MsFrames == a.Core().max10MsFrames
  {
    SameLayersCore(a, b);
    SameLayersCore(a.Peeled(), b.Peeled());
    SameCoreProperties(a.Core(), b.Core());
  }

  lemma CodecSurvivesIff(k: Codec, previous: Config, next: Config, overhead: nat, sending: bool, env: Surroundings)
    ensures ReconfigureSendCodec(k, previous, next, overhead, sending, env).Running? <==>
            CodecSurvives(k.encoder, previous, next, env)
  {
    hide SameFormat, SetupSendCodec, ReconfigureAna, ReconfigureCng, TakesNoise, SameCodec, Replaces;
    ReplacesIff(previous, next);
    CodecChoice(k, previous, next, overhead, sending, env);
    if CodecUnchanged(previous, next) {
    } else if NeedsNewEncoder(previous, next) {
      SetupSurvivesIff(k, next, overhead, sending, env);
    } else if k.encoder.Some? {
      KeptSurvivesIff(k, previous, next, overhead, sending, env);
    }
  }

  // ---------------------------------------------------------------------
  // The rates
  // ---------------------------------------------------------------------

  lemma UpdateSurvivesIff(trials: Trials, limits: Limits, r: Rates, moduleOverhead: nat)
    ensures UpdateOverhead(trials, limits, r, moduleOverhead).Running? <==>
            (r.registered && r.transportOverhead + moduleOverhead != r.overhead ==>
               Allocatable(trials, limits, r.ranges))
  {
    hide AllocationFor, Allocatable, EntryIs;
    EntryFields(trials, limits, r.transportOverhead + moduleOverhead, r.ranges);
  }

  lemma ObserverSurvivesIff(trials: Trials, r: Rates, previous: Config, next: Config)
    ensures ReconfigureBitrateObserver(trials, r, previous, next).Running? <==>
            (AsksForLimits(previous, next) ==> Allocatable(trials, next.limits, r.ranges))
  {
    hide AllocationFor, Allocatable, EntryIs, ObserverUnchanged, TransportSeqNumId;
    EntryFields(trials, next.limits, r.overhead, r.ranges);
  }

  // ---------------------------------------------------------------------
  // Operations
  // ---------------------------------------------------------------------

  /** The operation goes through. */
  ghost predicate Survives(s: Stream, op: Op) {
    match op
    case OpReconfigure(c, env) =>
      && IdsSurvive(s, c)
      && CodecSurvives(s.codec.encoder, s.config, c, env)
      && (s.rates.registered && s.rates.transportOverhead + env.moduleOverhead != s.rates.overhead ==>
            Allocatable(s.trials, s.config.limits, s.rates.ranges))
      && (s.sending && !SameObserved(s.config, c) && IsLimited(c) && UsesFeedback(c) ==>
            Allocatable(s.trials, c.limits, RangesAfter(s, op)))
    case OpStart(_) =>
      !s.sending && IsLimited(s.config) && (s.trials.allocateAudioWithoutFeedback || UsesFeedback(s.config)) ==>
        Allocatable(s.trials, s.config.limits, s.rates.ranges)
    case OpStop => true
    case OpSetTransportOverhead(bytes, moduleOverhead, _) =>
      s.rates.registered && bytes + moduleOverhead != s.rates.overhead ==>
        Allocatable(s.trials, s.config.limits, s.rates.ranges)
    case OpDeliverRtcp(moduleOverhead, _) =>
      s.rates.registered && s.rates.transportOverhead + moduleOverhead != s.rates.overhead ==>
        Allocatable(s.trials, s.config.limits, s.rates.ranges)
    case OpBitrateUpdated(_) => true
  }

  /** The extension ids of the new configuration can be given out. */
  ghost predicate IdsSurvive(s: Stream, c: Config) {
    var o, n := IdsOf(s.config.extensions), IdsOf(c.extensions);
    Renumberable(s.trials, o, n, IdOf(s.links.ids, TransportSequenceNumber), IdOf(s.links.ids, Mid),
                 MidIsSet(o, n, s.config, c, false))
  }

  /** The ranges a reconfiguration reads, whether or not it goes through in the end. */
  lemma RangesRead(s: Stream, c: Config, env: Surroundings, k: Codec, rates: Rates)
    requires ReconfigureSendCodec(s.codec, s.config, c, s.rates.overhead, s.sending, env) == Running(k)
    requires rates.ranges == s.rates.ranges
    ensures var told := PollCodec(k, s.trials, s.config.limits, s.rates, rates, env.overheadAnswer);
            ReadRanges(told, env, rates.ranges) == RangesAfter(s, OpReconfigure(c, env))
  {
    hide ReconfigureSendCodec, PollCodec, TellOverhead, BareAfter, NoisyAfter, Recreates, Retargeted;
    LayersForeseen(s.codec, s.config, c, s.rates.overhead, s.sending, env);
    TellKeepsLayers(k, s.rates.overhead, rates.overhead);
    PollRetargets(k, s.trials, s.config.limits, s.rates, rates, env.overheadAnswer);
    RetargetKeepsInstalled(TellOverhead(k, s.rates.overhead, rates.overhead),
                           PollCodec(k, s.trials, s.config.limits, s.rates, rates, env.overheadAnswer));
  }

  lemma RatesSurviveIff(s: Stream, c: Config, env: Surroundings)
    ensures ConfigureCodecAndRates(s, c, env).Running? <==>
            && CodecSurvives(s.codec.encoder, s.config, c, env)
            && (s.rates.registered && s.rates.transportOverhead + env.moduleOverhead != s.rates.overhead ==>
                  Allocatable(s.trials, s.config.limits, s.rates.ranges))
            && (s.sending && AsksForLimits(s.config, c) ==>
                  Allocatable(s.trials, c.limits, RangesAfter(s, OpReconfigure(c, env))))
  {
    hide ReconfigureSendCodec, UpdateOverhead, ReconfigureBitrateObserver, PollCodec, TellRate, ReadRanges,
         CodecSurvives, Allocatable, AsksForLimits, RangesAfter, ForwardedRate;
    CodecSurvivesIff(s.codec, s.config, c, s.rates.overhead, s.sending, env);
    UpdateSurvivesIff(s.trials, s.config.limits, s.rates, env.moduleOverhead);
    var codec := ReconfigureSendCodec(s.codec, s.config, c, s.rates.overhead, s.sending, env);
    var update := UpdateOverhead(s.trials, s.config.limits, s.rates, env.moduleOverhead);
    if codec.Running? && update.Running? {
      var rates := update.value;
      UpdateKeepsRanges(s.trials, s.config.limits, s.rates, env.moduleOverhead);
      RangesRead(s, c, env, codec.value, rates);
      var told := PollCodec(codec.value, s.trials, s.config.limits, s.rates, rates, env.overheadAnswer);
      ObserverSurvivesIff(s.trials, rates.(ranges := ReadRanges(told, env, rates.ranges)), s.config, c);
    }
  }

  lemma ReconfigureSurvivesIff(s: Stream, c: Config, env: Surroundings)
    requires Mirrors(s.links.ids, IdsOf(s.config.extensions))
    ensures ConfigureStream(s, c, false, env).Running? <==> Survives(s, OpReconfigure(c, env))
  {
    hide ConfigureLinks, ConfigureCodecAndRates, CodecSurvives, Allocatable, RangesAfter, SameObserved, UsesFeedback,
         Mirrors, IdsOf, Renumberable, AsksForLimits;
    AcceptedIff(s.trials, s.links, s.config, c, false);
    RatesSurviveIff(s, c, env);
    ObservedIff(s.config, c);
  }

  lemma StartSurvivesIff(s: Stream, answer: nat)
    ensures Start(s, answer).Running? <==> Survives(s, OpStart(answer))
  {
    hide AllocationFor, Allocatable, EntryIs, StartsAllocated, UsesFeedback, TellRate, ForwardedRate;
    StartsIff(s);
    EntryFields(s.trials, s.config.limits, s.rates.overhead, s.rates.ranges);
  }

  /** An operation goes through exactly when its condition holds before it. */
  lemma StepSurvivesIff(s: Stream, op: Op)
    requires Mirrors(s.links.ids, IdsOf(s.config.extensions))
    ensures Step(s, op).Running? <==> Survives(s, op)
  {
    hide ConfigureStream, UpdateOverhead, PollCodec, Start, Allocatable, Mirrors, IdsOf, UsesFeedback, SameObserved,
         CodecSurvives, IdsSurvive, RangesAfter;
    match op
    case OpReconfigure(c, env) => {
      ReconfigureSurvivesIff(s, c, env);
    }
    case OpStart(answer) => {
      StartSurvivesIff(s, answer);
    }
    case OpStop => {}
    case OpSetTransportOverhead(bytes, moduleOverhead, _) => {
      UpdateSurvivesIff(s.trials, s.config.limits, s.rates.(transportOverhead := bytes), moduleOverhead);
    }
    case OpDeliverRtcp(moduleOverhead, _) => {
      UpdateSurvivesIff(s.trials, s.config.limits, s.rates, moduleOverhead);
    }
    case OpBitrateUpdated(_) => {}
  }

  // ---------------------------------------------------------------------
  // Runs
  // ---------------------------------------------------------------------

  ghost predicate ConstructionSurvives(trials: Trials, c: Config, env: Surroundings) {
    var n := IdsOf(c.extensions);
    && Renumberable(trials, NO_IDS, n, 0, 0, n.mid != 0 && c.mid != "")
    && CodecSurvives(None, DEFAULT_CONFIG, c, env)
  }

  lemma ConstructSurvivesIff(trials: Trials, c: Config, env: Surroundings)
    ensures Construct(trials, c, env).Running? <==> ConstructionSurvives(trials, c, env)
  {
    hide ConfigureLinks, ConfigureCodecAndRates, CodecSurvives, Allocatable, RangesAfter, Mirrors, IdsOf, Renumberable,
         AsksForLimits;
    NothingMirrors();
    AcceptedIff(trials, NEW_LINKS, DEFAULT_CONFIG, c, true);
    RatesSurviveIff(NewStream(trials), c, env);
  }

  /** Construction and each of the operations meet their condition. */
  ghost predicate AllSurvive(trials: Trials, c: Config, env: Surroundings, ops: seq<Op>) {
    if ops == [] then ConstructionSurvives(trials, c, env)
    else
      var before := ops[..|ops| - 1];
      && AllSurvive(trials, c, env, before)
      && (Run(trials, c, env, before).Running? ==> Survives(Run(trials, c, env, before).value, ops[|ops| - 1]))
  }

  /** A run goes through exactly when construction and every operation meet their condition. */
  lemma {:induction false} RunSurvivesIff(trials: Trials, c: Config, env: Surroundings, ops: seq<Op>)
    ensures Run(trials, c, env, ops).Running? <==> AllSurvive(trials, c, env, ops)
    decreases |ops|
  {
    hide Construct, Step, Survives, ConstructionSurvives, Mirrors, IdsOf;
    if ops == [] {
      ConstructSurvivesIff(trials, c, env);
    } else {
      var before := ops[..|ops| - 1];
      RunSurvivesIff(trials, c, env, before);
      if Run(trials, c, env, before).Running? {
        RunMirrors(trials, c, env, before);
        StepSurvivesIff(Run(trials, c, env, before).value, ops[|ops| - 1]);
      }
    }
  }
}
