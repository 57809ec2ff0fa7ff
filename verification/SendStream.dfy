/** AudioSendStream of audio/audio_send_stream.cc as an object that updates its fields and
    its collaborators step by step.

    `State` gathers the fields into a `Stream` value, and every method is proved to have the
    effect of the function of `SendStreamModel` that models it.  `Valid` says that the
    state is the one of the run of the operations called so far, so that all that is
    proved of runs holds of the object, and that the mirrors which never fail do hold.
    A method returns `Crashed` where the program would stop. */
module SendStream {
  import opened Basics
  import opened RtpExtensions
  import opened SendStreamModel
  import opened SendStreamSettings
  import opened SendStreamEncoder
  import opened SendStreamRates
  import opened SendStreamSurvival

  lemma LinksDoNotMatter(s: Stream, links: Links, c: Config, env: Surroundings)
    ensures ConfigureCodecAndRates(s.(links := links), c, env) == ConfigureCodecAndRates(s, c, env)
  {
  }

  /** The mirrors that hold in every state of every run. */
  ghost predicate Coherent(s: Stream) {
    && Settled(s.links, s.config) && Shows(s.links, s.config)
    && SwitchedOn(s.trials, s.links, s.config) && UsesShow(s.trials, s.links, s.config)
    && Mirrors(s.links.ids, IdsOf(s.config.extensions))
    && CongestionRegistered(s.links.congestionCalls)
    && Alive(s) && StoredKnown(s.codec)
  }

  lemma RunCoherent(trials: Trials, c: Config, env: Surroundings, ops: seq<Op>)
    requires Run(trials, c, env, ops).Running?
    ensures Coherent(Run(trials, c, env, ops).value)
  {
    hide Run, Settled, Shows, SwitchedOn, UsesShow, Mirrors, CongestionRegistered, Alive, StoredKnown, IdsOf;
    RunSettles(trials, c, env, ops);
    RunSwitchesOn(trials, c, env, ops);
    RunMirrors(trials, c, env, ops);
    RunAlternates(trials, c, env, ops);
    RunAlive(trials, c, env, ops);
    RunStored(trials, c, env, ops);
  }

  lemma EmptyRun(trials: Trials, c: Config, env: Surroundings)
    ensures Run(trials, c, env, []) == ConfigureStream(NewStream(trials), c, true, env)
  {
  }

  lemma RateReachesEncoder(k: Codec, bps: nat)
    ensures TellRate(k, bps).encoder.Some? ==>
              var core := TellRate(k, bps).encoder.value.Core(); core.Speech? && core.targetBitrate == Some(bps)
  {
    RateReaches(k, bps);
  }

  lemma ConfigureSurvivesIff(s: Stream, c: Config, first: bool, env: Surroundings)
    requires if first then s == NewStream(s.trials) else Coherent(s)
    ensures ConfigureStream(s, c, first, env).Running? <==>
            if first then ConstructionSurvives(s.trials, c, env) else Survives(s, OpReconfigure(c, env))
  {
    hide ConfigureStream, ConstructionSurvives, Survives, Settled, Shows, SwitchedOn, UsesShow, Alive;
    if first {
      ConstructSurvivesIff(s.trials, c, env);
    } else {
      ReconfigureSurvivesIff(s, c, env);
    }
  }

  lemma CoherentSurvivesIff(s: Stream, op: Op)
    requires Coherent(s)
    ensures Step(s, op).Running? <==> Survives(s, op)
  {
    hide Step, Survives, Settled, Shows, SwitchedOn, UsesShow, Alive;
    StepSurvivesIff(s, op);
  }

  lemma RunExtends(trials: Trials, c: Config, env: Surroundings, ops: seq<Op>, op: Op)
    requires Run(trials, c, env, ops).Running?
    ensures Run(trials, c, env, ops + [op]) == Step(Run(trials, c, env, ops).value, op)
  {
    hide Step, Construct;
    assert (ops + [op])[..|ops|] == ops;
  }

  class AudioSendStream {
    const trials: Trials
    var config: Config
    var sending: bool
    var registeredWithAllocator: bool
    var encoderSampleRateHz: int
    var encoderNumChannels: nat
    var transportOverheadPerPacketBytes: nat
    var overheadPerPacket: nat
    var frameLengthRange: Option<FrameLengths>
    var bitrateRange: Option<Bounds>

    // Collaborators: the send channel and the RTP module, ...
    var links: Links
    var channelSending: bool
    var channelOverhead: nat
    var partOfAllocation: bool
    // ... the channel's encoder and the factory, ...
    var encoder: Option<Encoder>
    var encodersCreated: nat
    // ... and the stream's entries in AudioState and in the bitrate allocator.
    var audioState: Option<EncoderProperties>
    var allocation: Option<Allocation>

    // The run so far: the first configuration and the operations called since.
    ghost var firstConfig: Config
    ghost var firstEnv: Surroundings
    ghost var calls: seq<Op>

    ghost function CodecState(): Codec
      reads this
    {
      Codec(encoder, EncoderProperties(encoderSampleRateHz, encoderNumChannels), audioState, encodersCreated)
    }

    ghost function RatesState(): Rates
      reads this
    {
      Rates(transportOverheadPerPacketBytes, overheadPerPacket, channelOverhead,
            Ranges(frameLengthRange, bitrateRange), registeredWithAllocator, allocation, partOfAllocation)
    }

    ghost function State(): Stream
      reads this
    {
      Stream(trials, config, sending, channelSending, links, CodecState(), RatesState())
    }

    ghost predicate Valid()
      reads this
    {
      Run(trials, firstConfig, firstEnv, calls) == Running(State()) && Coherent(State())
    }

    /** Ends an operation that began in the state `before`. */
    ghost method Called(before: Stream, op: Op)
      requires Run(trials, firstConfig, firstEnv, calls) == Running(before)
      requires Step(before, op) == Running(State())
      modifies this`calls
      ensures Valid() && calls == old(calls) + [op]
    {
      hide Run, Step, Coherent;
      RunExtends(trials, firstConfig, firstEnv, calls, op);
      calls := calls + [op];
      RunCoherent(trials, firstConfig, firstEnv, calls);
    }

    /** The fields before the constructor's body; Configure is that body. */
    constructor (trials: Trials)
      ensures this.trials == trials && State() == NewStream(trials)
    {
      this.trials := trials;
      config := DEFAULT_CONFIG;
      sending, registeredWithAllocator := false, false;
      encoderSampleRateHz, encoderNumChannels := 0, 0;
      transportOverheadPerPacketBytes, overheadPerPacket := 0, 0;
      frameLengthRange, bitrateRange := None, None;
      links, channelSending, channelOverhead, partOfAllocation :=
        NEW_LINKS, false, ACCOUNTANT_DEFAULT_OVERHEAD, false;
      encoder, encodersCreated, audioState, allocation := None, 0, None, None;
    }

    // -------------------------------------------------------------------
    // Settings
    // -------------------------------------------------------------------

    method UpdateEventLogStreamConfig(newConfig: Config, firstTime: bool)
      modifies this`links
      ensures links == UpdateEventLog(old(links), config, newConfig, firstTime)
    {
      if !firstTime && newConfig.ssrc == config.ssrc && newConfig.extensions == config.extensions
         && SamePayloadType(newConfig.sendCodecSpec, config.sendCodecSpec) {
        return;
      }
      var codec: Option<(string, int)> := None;
      if newConfig.sendCodecSpec.Some? {
        codec := Some((newConfig.sendCodecSpec.value.format.name, newConfig.sendCodecSpec.value.payloadType));
      }
      links := links.(log := links.log + [LogEntry(newConfig.ssrc, newConfig.extensions, codec)]);
    }

    method ConfigurePlainSettings(newConfig: Config, firstTime: bool)
      modifies this`links
      ensures links == ConfigureChannel(old(links), config, newConfig, firstTime)
    {
      if firstTime || config.cName != newConfig.cName {
        links := links.(cName := Truncated(newConfig.cName));
      }
      if firstTime || newConfig.frameEncryptor != config.frameEncryptor {
        links := links.(frameEncryptor := newConfig.frameEncryptor);
      }
      if firstTime || newConfig.frameTransformer != config.frameTransformer {
        if newConfig.frameTransformer.Some? {
          links := links.(frameTransformer := newConfig.frameTransformer);
        }
      }
      if firstTime || newConfig.extmapAllowMixed != config.extmapAllowMixed {
        links := links.(extmapAllowMixed := newConfig.extmapAllowMixed);
      }
    }

    method RegisterRtpHeaderExtension(kind: ExtensionKind, id: int) returns (r: Outcome<()>)
      modifies this`links
      ensures r.Running? ==>
                Register(old(links).ids, kind, id) == Running(links.ids) && links == old(links).(ids := links.ids)
      ensures r.Crashed? ==> Register(old(links).ids, kind, id) == Crashed
    {
      var ids :- Register(links.ids, kind, id);
      links := links.(ids := ids);
      return Running(());
    }

    method DeregisterSendRtpHeaderExtension(kind: ExtensionKind)
      modifies this`links
      ensures links == old(links).(ids := old(links).ids - {kind})
    {
      links := links.(ids := links.ids - {kind});
    }

    /** ChannelSend::SetSendAudioLevelIndicationStatus. */
    method SetSendAudioLevelIndicationStatus(enable: bool, id: int) returns (r: Outcome<()>)
      modifies this`links
      ensures r.Running? && enable ==>
                && Register(old(links).ids, AudioLevel, id) == Running(links.ids)
                && links == old(links).(includeAudioLevel := true, ids := links.ids)
      ensures r.Running? && !enable ==>
                links == old(links).(includeAudioLevel := false, ids := old(links).ids - {AudioLevel})
      ensures r.Crashed? ==> enable && Register(old(links).ids, AudioLevel, id) == Crashed
    {
      links := links.(includeAudioLevel := enable);
      if enable {
        r := RegisterRtpHeaderExtension(AudioLevel, id);
      } else {
        DeregisterSendRtpHeaderExtension(AudioLevel);
        r := Running(());
      }
    }

    method ConfigureAudioLevelIndication(newIds: ExtensionIds, oldIds: ExtensionIds, firstTime: bool)
      returns (r: Outcome<()>)
      modifies this`links
      ensures r.Running? ==> ConfigureAudioLevel(old(links), oldIds, newIds, firstTime) == Running(links)
      ensures r.Crashed? ==> ConfigureAudioLevel(old(links), oldIds, newIds, firstTime) == Crashed
    {
      if firstTime || newIds.audioLevel != oldIds.audioLevel {
        var _ :- SetSendAudioLevelIndicationStatus(newIds.audioLevel != 0, newIds.audioLevel);
      }
      return Running(());
    }

    /** Absolute send time and absolute capture time: deregistered before a new id is given. */
    method ConfigureExtension(kind: ExtensionKind, newId: int, oldId: int, firstTime: bool) returns (r: Outcome<()>)
      modifies this`links
      ensures r.Running? ==> Reregister(old(links), kind, oldId, newId, firstTime) == Running(links)
      ensures r.Crashed? ==> Reregister(old(links), kind, oldId, newId, firstTime) == Crashed
    {
      if firstTime || newId != oldId {
        DeregisterSendRtpHeaderExtension(kind);
        if newId != 0 {
          var _ :- RegisterRtpHeaderExtension(kind, newId);
        }
      }
      return Running(());
    }

    method ConfigureCongestionControl(newIds: ExtensionIds, oldIds: ExtensionIds, firstTime: bool)
      returns (r: Outcome<()>)
      modifies this`links
      ensures r.Running? ==> ConfigureFeedback(trials, old(links), oldIds, newIds, firstTime) == Running(links)
      ensures r.Crashed? ==> ConfigureFeedback(trials, old(links), oldIds, newIds, firstTime) == Crashed
    {
      var transportSeqNumIdChanged := newIds.transportSequenceNumber != oldIds.transportSequenceNumber;
      if firstTime || (transportSeqNumIdChanged && !trials.allocateAudioWithoutFeedback) {
        if !firstTime {
          links := links.(congestionCalls := links.congestionCalls + [ResetCongestionControl]);
        }
        if !trials.allocateAudioWithoutFeedback && newIds.transportSequenceNumber != 0 {
          var _ :- RegisterRtpHeaderExtension(TransportSequenceNumber, newIds.transportSequenceNumber);
        }
        links := links.(congestionCalls := links.congestionCalls + [RegisterCongestionControl]);
        ghost var reset := if firstTime then [] else [ResetCongestionControl];
        assert links.congestionCalls == old(links).congestionCalls + reset + [RegisterCongestionControl];
      }
      return Running(());
    }

    method ConfigureMidExtension(newConfig: Config, newIds: ExtensionIds, oldIds: ExtensionIds, firstTime: bool)
      returns (r: Outcome<()>)
      modifies this`links
      ensures r.Running? ==> ConfigureMid(old(links), oldIds, newIds, config, newConfig, firstTime) == Running(links)
      ensures r.Crashed? ==> ConfigureMid(old(links), oldIds, newIds, config, newConfig, firstTime) == Crashed
    {
      if (firstTime || newIds.mid != oldIds.mid || newConfig.mid != config.mid)
         && newIds.mid != 0 && newConfig.mid != "" {
        var _ :- RegisterRtpHeaderExtension(Mid, newIds.mid);
        links := links.(mid := newConfig.mid);
      }
      return Running(());
    }

    /** ConfigureStream up to the codec. */
    method ConfigureSettings(newConfig: Config, firstTime: bool) returns (r: Outcome<()>)
      modifies this`links
      ensures r.Running? ==> ConfigureLinks(trials, old(links), config, newConfig, firstTime) == Running(links)
      ensures r.Crashed? ==> ConfigureLinks(trials, old(links), config, newConfig, firstTime) == Crashed
    {
      hide IdsOf, UpdateEventLog, ConfigureChannel, ConfigureAudioLevel, Reregister, ConfigureFeedback, ConfigureMid;
      UpdateEventLogStreamConfig(newConfig, firstTime);
      ConfigurePlainSettings(newConfig, firstTime);
      var oldIds := FindExtensionIds(config.extensions);
      var newIds := FindExtensionIds(newConfig.extensions);
      var _ :- ConfigureAudioLevelIndication(newIds, oldIds, firstTime);
      var _ :- ConfigureExtension(AbsSendTime, newIds.absSendTime, oldIds.absSendTime, firstTime);
      var _ :- ConfigureCongestionControl(newIds, oldIds, firstTime);
      var _ :- ConfigureMidExtension(newConfig, newIds, oldIds, firstTime);
      var _ :- ConfigureExtension(AbsCaptureTime, newIds.absCaptureTime, oldIds.absCaptureTime, firstTime);
      return Running(());
    }

    // -------------------------------------------------------------------
    // Codec
    // -------------------------------------------------------------------

    method StoreProperties(sampleRateHz: int, numChannels: nat)
      modifies this`encoderSampleRateHz, this`encoderNumChannels, this`audioState
      ensures CodecState() ==
              StoreEncoderProperties(old(CodecState()), EncoderProperties(sampleRateHz, numChannels), sending)
    {
      encoderSampleRateHz := sampleRateHz;
      encoderNumChannels := numChannels;
      if sending {
        audioState := Some(EncoderProperties(sampleRateHz, numChannels));
      }
    }

    /** SetupSendCodec; `ok` is the value it returns. */
    method SetupCodec(newConfig: Config, env: Surroundings) returns (r: Outcome<()>, ok: bool)
      requires newConfig.sendCodecSpec.Some?
      modifies this`encoder, this`encodersCreated, this`encoderSampleRateHz, this`encoderNumChannels, this`audioState
      ensures r.Running? ==>
                SetupSendCodec(old(CodecState()), newConfig, overheadPerPacket, sending, env) == Running(CodecState())
      ensures r.Crashed? ==>
                SetupSendCodec(old(CodecState()), newConfig, overheadPerPacket, sending, env) == Crashed
      ensures ok == env.created.Some?
    {
      ok := env.created.Some?;
      r := Running(());
      if env.created.None? {
        return;
      }
      var spec, made := newConfig.sendCodecSpec.value, env.created.value;
      var e := Speech(encodersCreated, spec.format, spec.payloadType, made.sampleRateHz, made.channels,
                      made.max10MsFrames, None, None, 0);
      if spec.targetBitrateBps.Some? {
        e := e.OnReceivedTargetAudioBitrate(spec.targetBitrateBps.value);
      }
      if newConfig.audioNetworkAdaptor.Some? {
        e := e.EnableAdaptor(newConfig.audioNetworkAdaptor.value, env.adaptorAccepted).0;
      }
      if spec.cngPayloadType.Some? {
        var cng := CreateComfortNoise(spec.cngPayloadType.value, e);
        if cng.Crashed? {
          r := Crashed;
          return;
        }
        e := cng.value;
      }
      if spec.redPayloadType.Some? {
        e := Red(spec.redPayloadType.value, e);
      }
      if overheadPerPacket > 0 {
        e := e.OnReceivedOverhead(overheadPerPacket);
      }
      StoreProperties(e.SampleRateHz(), e.NumChannels());
      encoder := Some(e);
      encodersCreated := encodersCreated + 1;
    }

    /** CallEncoder with EnableAudioNetworkAdaptor or DisableAudioNetworkAdaptor. */
    method ReconfigureAdaptor(newConfig: Config, accepted: bool)
      modifies this`encoder
      ensures encoder ==
              if old(encoder).None? then None
              else Some(ReconfigureAna(old(encoder).value, config, newConfig, overheadPerPacket, accepted))
    {
      if newConfig.audioNetworkAdaptor == config.audioNetworkAdaptor || encoder.None? {
        return;
      }
      if newConfig.audioNetworkAdaptor.Some? {
        var (e, enabled) := encoder.value.EnableAdaptor(newConfig.audioNetworkAdaptor.value, accepted);
        if enabled && overheadPerPacket > 0 {
          e := e.OnReceivedOverhead(overheadPerPacket);
        }
        encoder := Some(e);
      } else {
        encoder := Some(encoder.value.DisableAdaptor());
      }
    }

    /** ReconfigureCNG. */
    method ReconfigureComfortNoise(newSpec: SendCodecSpec, oldSpec: SendCodecSpec) returns (r: Outcome<()>)
      modifies this`encoder
      ensures old(encoder).Some? && r.Running? ==>
                encoder.Some? && ReconfigureCng(old(encoder).value, oldSpec, newSpec) == Running(encoder.value)
      ensures old(encoder).Some? && r.Crashed? ==> ReconfigureCng(old(encoder).value, oldSpec, newSpec) == Crashed
      ensures old(encoder).None? ==>
                (r.Running? <==> newSpec.cngPayloadType == oldSpec.cngPayloadType) && encoder == None
    {
      if newSpec.cngPayloadType == oldSpec.cngPayloadType {
        return Running(());
      }
      if encoder.None? {
        return Crashed;
      }
      var oldEncoder := encoder.value;
      if !oldEncoder.Speech? {
        oldEncoder := oldEncoder.inner;
      }
      if newSpec.cngPayloadType.Some? {
        oldEncoder :- CreateComfortNoise(newSpec.cngPayloadType.value, oldEncoder);
      }
      encoder := Some(oldEncoder);
      return Running(());
    }

    /** ReconfigureSendCodec. */
    method ReconfigureCodec(newConfig: Config, env: Surroundings) returns (r: Outcome<()>)
      modifies this`encoder, this`encodersCreated, this`encoderSampleRateHz, this`encoderNumChannels, this`audioState
      ensures r.Running? ==>
                ReconfigureSendCodec(old(CodecState()), config, newConfig, overheadPerPacket, sending, env) ==
                Running(CodecState())
      ensures r.Crashed? ==>
                ReconfigureSendCodec(old(CodecState()), config, newConfig, overheadPerPacket, sending, env) == Crashed
      ensures r.Running? <==> CodecSurvives(old(encoder), config, newConfig, env)
    {
      CodecSurvivesIff(CodecState(), config, newConfig, overheadPerPacket, sending, env);
      hide CodecSurvives, SameFormat, SetupSendCodec, ReconfigureAna, ReconfigureCng;
      if newConfig.sendCodecSpec.None? {
        return Running(());
      }
      var newSpec := newConfig.sendCodecSpec.value;
      if config.sendCodecSpec.Some? && SameSpec(newSpec, config.sendCodecSpec.value)
         && newConfig.audioNetworkAdaptor == config.audioNetworkAdaptor {
        return Running(());
      }
      if config.sendCodecSpec.None? || !SameFormat(newSpec.format, config.sendCodecSpec.value.format)
         || newSpec.payloadType != config.sendCodecSpec.value.payloadType
         || newSpec.redPayloadType != config.sendCodecSpec.value.redPayloadType {
        var ok;
        r, ok := SetupCodec(newConfig, env);
        return;
      }
      var oldSpec := config.sendCodecSpec.value;
      if newSpec.targetBitrateBps.Some? && newSpec.targetBitrateBps != oldSpec.targetBitrateBps && encoder.Some? {
        encoder := Some(encoder.value.OnReceivedTargetAudioBitrate(newSpec.targetBitrateBps.value));
      }
      ReconfigureAdaptor(newConfig, env.adaptorAccepted);
      r := ReconfigureComfortNoise(newSpec, oldSpec);
    }

    // -------------------------------------------------------------------
    // Rates
    // -------------------------------------------------------------------

    method GetMinMaxBitrateConstraints() returns (c: Option<Bounds>)
      ensures c == Constraints(trials, config.limits, overheadPerPacket, RatesState().ranges)
      ensures c.Some? <==> Allocatable(trials, config.limits, RatesState().ranges)
      ensures c.Some? ==>
                BoundsAre(trials, config.limits, overheadPerPacket, RatesState().ranges, c.value.min, c.value.max)
    {
      hide Allocatable, BoundsAre;
      ConstraintsAre(trials, config.limits, overheadPerPacket, RatesState().ranges);
      if config.limits.minBitrateBps < 0 || config.limits.maxBitrateBps < 0 {
        return None;
      }
      var min, max := config.limits.minBitrateBps, config.limits.maxBitrateBps;
      if trials.minBitrate.Some? {
        min := trials.minBitrate.value;
      }
      if trials.maxBitrate.Some? {
        max := trials.maxBitrate.value;
      }
      if bitrateRange.Some? {
        min, max := bitrateRange.value.min, bitrateRange.value.max;
      }
      if max < min {
        return None;
      }
      if trials.legacyOverheadCalculation {
        var minOverhead := Rate(LEGACY_OVERHEAD_BYTES, LEGACY_MAX_FRAME);
        return Some(Bounds(min + minOverhead, max + minOverhead));
      }
      if frameLengthRange.None? {
        return None;
      }
      min := min + Rate(overheadPerPacket, frameLengthRange.value.longest);
      max := max + Rate(overheadPerPacket, frameLengthRange.value.shortest);
      return Some(Bounds(min, max));
    }

    /** OnBitrateUpdated: a rate is clamped into the constraints, if there are any. */
    method ClampRate(rate: nat) returns (bps: nat)
      ensures bps == ForwardedRate(trials, config.limits, overheadPerPacket, RatesState().ranges, rate)
    {
      hide Constraints;
      var constraints := GetMinMaxBitrateConstraints();
      bps := rate;
      if constraints.Some? {
        bps := if bps < constraints.value.max then bps else constraints.value.max;
        bps := if bps < constraints.value.min then constraints.value.min else bps;
      }
    }

    /** ChannelSend::OnBitrateAllocation. */
    method ForwardRate(bps: nat)
      modifies this`encoder
      ensures CodecState() == TellRate(old(CodecState()), bps)
    {
      if encoder.Some? {
        encoder := Some(encoder.value.OnReceivedTargetAudioBitrate(bps));
      }
    }

    /** ConfigureBitrateObserver: adds the stream to the allocator or updates its entry.  The
        allocator answers at once with an update. */
    method ConfigureObserver(answer: nat) returns (r: Outcome<()>)
      modifies this`allocation, this`registeredWithAllocator, this`encoder
      ensures r.Running? ==>
                && ConfigureBitrateObserver(trials, config.limits, old(RatesState())) == Running(RatesState())
                && CodecState() ==
                   TellRate(old(CodecState()),
                            ForwardedRate(trials, config.limits, overheadPerPacket, RatesState().ranges, answer))
      ensures r.Crashed? ==> ConfigureBitrateObserver(trials, config.limits, old(RatesState())) == Crashed
      ensures r.Running? <==> Allocatable(trials, config.limits, RatesState().ranges)
      ensures r.Running? ==>
                && registeredWithAllocator && allocation.Some?
                && EntryIs(trials, config.limits, overheadPerPacket, RatesState().ranges, allocation.value)
    {
      hide Rate, ForwardedRate, TellRate, Allocatable, EntryIs, BoundsAre;
      EntryFields(trials, config.limits, overheadPerPacket, RatesState().ranges);
      var constraints := GetMinMaxBitrateConstraints();
      if constraints.None? {
        return Crashed;
      }
      var priorityBitrate := trials.priorityBitrate;
      if trials.legacyOverheadCalculation {
        priorityBitrate := priorityBitrate + Rate(LEGACY_OVERHEAD_BYTES, LEGACY_MIN_PACKET);
      } else {
        priorityBitrate := priorityBitrate + Rate(overheadPerPacket, frameLengthRange.value.longest);
      }
      if trials.priorityBitrateRaw.Some? {
        priorityBitrate := trials.priorityBitrateRaw.value;
      }
      if !trials.enablePriorityBitrate {
        priorityBitrate := 0;
      }
      var priority := config.limits.bitratePriority;
      if trials.bitratePriority.Some? {
        priority := trials.bitratePriority.value;
      }
      allocation := Some(Allocation(constraints.value.min, constraints.value.max, priorityBitrate, priority));
      var bps := ClampRate(answer);
      ForwardRate(bps);
      registeredWithAllocator := true;
      return Running(());
    }

    method RemoveObserver()
      modifies this`allocation, this`registeredWithAllocator
      ensures RatesState() == RemoveBitrateObserver(old(RatesState()))
    {
      registeredWithAllocator := false;
      allocation := None;
    }

    /** ReconfigureBitrateObserver.  The limits are stored before the observer is configured,
        since registering may call back at once. */
    method ReconfigureObserver(newConfig: Config, answer: nat) returns (r: Outcome<()>)
      modifies this`config, this`allocation, this`registeredWithAllocator, this`partOfAllocation, this`encoder
      ensures r.Running? ==>
                && ReconfigureBitrateObserver(trials, old(RatesState()), old(config), newConfig) ==
                   Running(RatesState())
                && config.(limits := newConfig.limits) == old(config).(limits := newConfig.limits)
                && CodecState() ==
                   (if AsksForLimits(old(config), newConfig)
                    then TellRate(old(CodecState()),
                                  ForwardedRate(trials, newConfig.limits, overheadPerPacket, RatesState().ranges,
                                                answer))
                    else old(CodecState()))
      ensures r.Crashed? ==> ReconfigureBitrateObserver(trials, old(RatesState()), old(config), newConfig) == Crashed
    {
      hide AllocationFor, TransportSeqNumId, ForwardedRate, TellRate;
      if config.limits.minBitrateBps == newConfig.limits.minBitrateBps
         && config.limits.maxBitrateBps == newConfig.limits.maxBitrateBps
         && config.limits.bitratePriority == newConfig.limits.bitratePriority
         && TransportSeqNumId(config) == TransportSeqNumId(newConfig)
         && config.audioNetworkAdaptor == newConfig.audioNetworkAdaptor {
        return Running(());
      }
      if !newConfig.hasDscp && newConfig.limits.minBitrateBps != -1 && newConfig.limits.maxBitrateBps != -1
         && TransportSeqNumId(newConfig) != 0 {
        config := config.(limits := newConfig.limits);
        var _ :- ConfigureObserver(answer);
        partOfAllocation := true;
      } else {
        RemoveObserver();
        partOfAllocation := false;
      }
      return Running(());
    }

    method UpdateOverheadPerPacket(moduleOverhead: nat, answer: nat) returns (r: Outcome<()>)
      modifies this`overheadPerPacket, this`channelOverhead, this`allocation, this`registeredWithAllocator, this`encoder
      ensures r.Running? ==>
                && UpdateOverhead(trials, config.limits, old(RatesState()), moduleOverhead) == Running(RatesState())
                && CodecState() ==
                   PollCodec(old(CodecState()), trials, config.limits, old(RatesState()), RatesState(), answer)
      ensures r.Crashed? ==> UpdateOverhead(trials, config.limits, old(RatesState()), moduleOverhead) == Crashed
      ensures r.Running? <==>
              (old(registeredWithAllocator)
               && transportOverheadPerPacketBytes + moduleOverhead != old(overheadPerPacket) ==>
                 Allocatable(trials, config.limits, old(RatesState()).ranges))
    {
      hide AllocationFor, ForwardedRate, TellRate, Allocatable, EntryIs;
      var overheadPerPacketBytes := transportOverheadPerPacketBytes + moduleOverhead;
      if overheadPerPacket == overheadPerPacketBytes {
        return Running(());
      }
      overheadPerPacket := overheadPerPacketBytes;
      if encoder.Some? {
        encoder := Some(encoder.value.OnReceivedOverhead(overheadPerPacketBytes));
      }
      if registeredWithAllocator {
        var _ :- ConfigureObserver(answer);
      }
      channelOverhead := overheadPerPacketBytes;
      return Running(());
    }

    /** CallEncoder with a reader of the encoder's ranges. */
    method ReadEncoderRanges(env: Surroundings)
      modifies this`frameLengthRange, this`bitrateRange
      ensures RatesState() == old(RatesState()).(ranges := ReadRanges(CodecState(), env, old(RatesState()).ranges))
    {
      if encoder.Some? {
        frameLengthRange := env.frameLengths;
        bitrateRange := if encoder.value.Speech? then env.bitrateRange else None;
      }
    }

    // -------------------------------------------------------------------
    // Operations
    // -------------------------------------------------------------------

    method ConfigureEncoderAndRates(newConfig: Config, env: Surroundings) returns (r: Outcome<()>)
      modifies this`config, this`encoder, this`encodersCreated, this`encoderSampleRateHz, this`encoderNumChannels,
               this`audioState, this`overheadPerPacket, this`channelOverhead, this`allocation,
               this`registeredWithAllocator, this`frameLengthRange, this`bitrateRange, this`partOfAllocation
      ensures r.Running? ==>
                ConfigureCodecAndRates(old(State()), newConfig, env) == Running((CodecState(), RatesState()))
      ensures r.Crashed? ==> ConfigureCodecAndRates(old(State()), newConfig, env) == Crashed
    {
      hide ReconfigureSendCodec, UpdateOverhead, ReconfigureBitrateObserver, PollCodec, ReadRanges,
           TellRate, ForwardedRate, AsksForLimits;
      var _ :- ReconfigureCodec(newConfig, env);
      var _ :- UpdateOverheadPerPacket(env.moduleOverhead, env.overheadAnswer);
      ReadEncoderRanges(env);
      if sending {
        var _ :- ReconfigureObserver(newConfig, env.limitsAnswer);
      }
      return Running(());
    }

    method ApplyConfiguration(newConfig: Config, firstTime: bool, env: Surroundings) returns (r: Outcome<()>)
      modifies this
      ensures r.Running? ==> ConfigureStream(old(State()), newConfig, firstTime, env) == Running(State())
      ensures r.Crashed? ==> ConfigureStream(old(State()), newConfig, firstTime, env) == Crashed
      ensures firstConfig == old(firstConfig) && firstEnv == old(firstEnv) && calls == old(calls)
    {
      hide ConfigureLinks, ConfigureCodecAndRates;
      ghost var s := State();
      var _ :- ConfigureSettings(newConfig, firstTime);
      assert ConfigureCodecAndRates(State(), newConfig, env) == ConfigureCodecAndRates(s, newConfig, env) by {
        LinksDoNotMatter(s, links, newConfig, env);
      }
      var _ :- ConfigureEncoderAndRates(newConfig, env);
      config := newConfig;
      return Running(());
    }

    /** ConfigureStream: the body of the constructor (first time) and of Reconfigure. */
    method Configure(newConfig: Config, firstTime: bool, env: Surroundings) returns (r: Outcome<()>)
      requires if firstTime then State() == NewStream(trials) else Valid()
      modifies this
      ensures r.Running? ==> ConfigureStream(old(State()), newConfig, firstTime, env) == Running(State())
      ensures r.Crashed? ==> ConfigureStream(old(State()), newConfig, firstTime, env) == Crashed
      ensures r.Running? <==>
              if firstTime then ConstructionSurvives(trials, newConfig, env)
              else old(Survives(State(), OpReconfigure(newConfig, env)))
      ensures r.Running? && firstTime ==>
                Valid() && firstConfig == newConfig && firstEnv == env && calls == []
      ensures r.Running? && !firstTime ==>
                && Valid() && firstConfig == old(firstConfig) && firstEnv == old(firstEnv)
                && calls == old(calls) + [OpReconfigure(newConfig, env)]
    {
      hide ConfigureStream, Coherent, Run, Start, Stop, SetTransportOverhead, PollOverhead, BitrateUpdated, Survives,
           ConstructionSurvives;
      ghost var s := State();
      ConfigureSurvivesIff(s, newConfig, firstTime, env);
      var _ :- ApplyConfiguration(newConfig, firstTime, env);
      if firstTime {
        firstConfig, firstEnv, calls := newConfig, env, [];
        EmptyRun(trials, newConfig, env);
        RunCoherent(trials, newConfig, env, []);
      } else {
        Called(s, OpReconfigure(newConfig, env));
      }
      return Running(());
    }

    method BeginSending(answer: nat) returns (r: Outcome<()>)
      modifies this`sending, this`channelSending, this`partOfAllocation, this`allocation,
               this`registeredWithAllocator, this`encoder, this`audioState
      ensures r.Running? ==> Start(old(State()), answer) == Running(State())
      ensures r.Crashed? ==> Start(old(State()), answer) == Crashed
    {
      hide AllocationFor, TransportSeqNumId, ForwardedRate, TellRate;
      if sending {
        return Running(());
      }
      if !config.hasDscp && config.limits.minBitrateBps != -1 && config.limits.maxBitrateBps != -1
         && (trials.allocateAudioWithoutFeedback || TransportSeqNumId(config) != 0) {
        partOfAllocation := true;
        var _ :- ConfigureObserver(answer);
      } else {
        partOfAllocation := false;
      }
      channelSending := true;
      sending := true;
      audioState := Some(EncoderProperties(encoderSampleRateHz, encoderNumChannels));
      return Running(());
    }

    method StartSending(answer: nat) returns (r: Outcome<()>)
      requires Valid()
      modifies this
      ensures r.Running? ==> Start(old(State()), answer) == Running(State())
      ensures r.Crashed? ==> Start(old(State()), answer) == Crashed
      ensures r.Running? ==> Valid() && calls == old(calls) + [OpStart(answer)]
      ensures r.Running? <==> old(Survives(State(), OpStart(answer)))
    {
      hide Coherent, Run, ConfigureStream, Start, Stop, SetTransportOverhead, PollOverhead, BitrateUpdated, Survives;
      ghost var s := State();
      CoherentSurvivesIff(s, OpStart(answer));
      var _ :- BeginSending(answer);
      Called(s, OpStart(answer));
      return Running(());
    }

    method StopSending()
      requires Valid()
      modifies this
      ensures State() == Stop(old(State()))
      ensures Valid() && calls == old(calls) + [OpStop]
    {
      hide Coherent, Run, ConfigureStream, Start, SetTransportOverhead, PollOverhead, BitrateUpdated;
      ghost var s := State();
      if sending {
        RemoveObserver();
        channelSending := false;
        sending := false;
        audioState := None;
      }
      Called(s, OpStop);
    }

    method SetTransportOverheadPerPacket(bytes: nat, moduleOverhead: nat, answer: nat) returns (r: Outcome<()>)
      requires Valid()
      modifies this
      ensures r.Running? ==> SetTransportOverhead(old(State()), bytes, moduleOverhead, answer) == Running(State())
      ensures r.Crashed? ==> SetTransportOverhead(old(State()), bytes, moduleOverhead, answer) == Crashed
      ensures r.Running? ==> Valid() && calls == old(calls) + [OpSetTransportOverhead(bytes, moduleOverhead, answer)]
      ensures r.Running? <==> old(Survives(State(), OpSetTransportOverhead(bytes, moduleOverhead, answer)))
    {
      hide UpdateOverhead, PollCodec, Coherent, Run, ConfigureStream, Start, Stop, BitrateUpdated, Survives,
           Allocatable;
      ghost var s := State();
      CoherentSurvivesIff(s, OpSetTransportOverhead(bytes, moduleOverhead, answer));
      transportOverheadPerPacketBytes := bytes;
      var _ :- UpdateOverheadPerPacket(moduleOverhead, answer);
      Called(s, OpSetTransportOverhead(bytes, moduleOverhead, answer));
      return Running(());
    }

    /** DeliverRtcp: the packet may have changed the overhead the RTP module expects. */
    method DeliverRtcp(moduleOverhead: nat, answer: nat) returns (r: Outcome<()>)
      requires Valid()
      modifies this
      ensures r.Running? ==> PollOverhead(old(State()), moduleOverhead, answer) == Running(State())
      ensures r.Crashed? ==> PollOverhead(old(State()), moduleOverhead, answer) == Crashed
      ensures r.Running? ==> Valid() && calls == old(calls) + [OpDeliverRtcp(moduleOverhead, answer)]
      ensures r.Running? <==> old(Survives(State(), OpDeliverRtcp(moduleOverhead, answer)))
    {
      hide UpdateOverhead, PollCodec, Coherent, Run, ConfigureStream, Start, Stop, BitrateUpdated, Survives,
           Allocatable;
      ghost var s := State();
      CoherentSurvivesIff(s, OpDeliverRtcp(moduleOverhead, answer));
      var _ :- UpdateOverheadPerPacket(moduleOverhead, answer);
      Called(s, OpDeliverRtcp(moduleOverhead, answer));
      return Running(());
    }

    /** OnBitrateUpdated: the target and the stable target are clamped into the constraints
        and forwarded, so with ordered frame lengths both lie within them; the encoder is
        given the target. */
    method OnBitrateUpdated(target: nat, stableTarget: nat)
      returns (protection: nat, forwarded: nat, forwardedStable: nat)
      requires Valid()
      modifies this
      ensures State() == BitrateUpdated(old(State()), target)
      ensures Valid() && calls == old(calls) + [OpBitrateUpdated(target)]
      ensures forwarded == Forwarded(State(), target) && forwardedStable == Forwarded(State(), stableTarget)
      ensures var c := Constraints(trials, config.limits, overheadPerPacket, RatesState().ranges);
              Ordered(RatesState().ranges) && c.Some? ==>
                c.value.min <= forwarded <= c.value.max && c.value.min <= forwardedStable <= c.value.max
      ensures stableTarget <= target && Ordered(RatesState().ranges) ==> forwardedStable <= forwarded
      ensures encoder.Some? ==> encoder.value.Core().Speech? && encoder.value.Core().targetBitrate == Some(forwarded)
      ensures protection == 0
    {
      hide Constraints, Coherent, Run, Ordered, TellRate, ForwardedRate, ConfigureStream, Start, Stop,
           SetTransportOverhead, PollOverhead;
      ghost var s := State();
      forwarded := ClampRate(target);
      forwardedStable := ClampRate(stableTarget);
      ForwardRate(forwarded);
      Called(s, OpBitrateUpdated(target));
      protection := 0;
      RateReachesEncoder(s.codec, forwarded);
      if Ordered(RatesState().ranges) {
        ForwardedWithinConstraints(State(), target);
        ForwardedWithinConstraints(State(), stableTarget);
        if stableTarget <= target {
          ForwardedMonotone(State(), stableTarget, target);
        }
      }
    }

    /** The destructor of a stopped stream resets congestion control for the last time. */
    method Destruct()
      requires Valid() && !sending
      modifies this`links
      ensures links == old(links).(congestionCalls := old(links).congestionCalls + [ResetCongestionControl])
      ensures Alternates(links.congestionCalls) && |links.congestionCalls| % 2 == 0
    {
      hide Run;
      links := links.(congestionCalls := links.congestionCalls + [ResetCongestionControl]);
    }
  }
}
