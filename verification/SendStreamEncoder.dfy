/** The encoder an audio send stream installs: its layers, when the speech encoder inside is
    replaced, and what that encoder is told. */
module SendStreamEncoder {
  import opened Basics
  import opened RtpExtensions
  import opened SendStreamModel

  // ---------------------------------------------------------------------
  // Layers
  // ---------------------------------------------------------------------

  /** The layers a codec specification asks for around a speech encoder. */
  function Wrapped(spec: SendCodecSpec, core: Encoder): Encoder {
    var cng := if spec.cngPayloadType.Some? then Cng(spec.cngPayloadType.value, core) else core;
    if spec.redPayloadType.Some? then Red(spec.redPayloadType.value, cng) else cng
  }

  /** The encoder is the speech encoder for the specification's format and payload type inside
      exactly the layers it asks for. */
  ghost predicate Shaped(e: Encoder, spec: SendCodecSpec) {
    && e.Core().Speech?
    && SameFormat(e.Core().format, spec.format) && e.Core().payloadType == spec.payloadType
    && e == Wrapped(spec, e.Core())
  }

  predicate SameLetter(x: char, y: char) {
    || x == y
    || ('A' <= x <= 'Z' && y as int == x as int + 32)
    || ('A' <= y <= 'Z' && x as int == y as int + 32)
  }

  /** Equal formats, up to the case of ASCII letters in the name. */
  ghost predicate SameCodec(a: AudioFormat, b: AudioFormat) {
    && a.clockrateHz == b.clockrateHz && a.channels == b.channels && a.parameters == b.parameters
    && |a.name| == |b.name| && forall i :: 0 <= i < |a.name| ==> SameLetter(a.name[i], b.name[i])
  }

  lemma LowerIff(x: char, y: char)
    ensures ToLower(x) == ToLower(y) <==> SameLetter(x, y)
  {
  }

  lemma FormatIff(a: AudioFormat, b: AudioFormat)
    ensures SameFormat(a, b) <==> SameCodec(a, b)
  {
    hide ToLower, SameLetter;
    forall x, y
      ensures ToLower(x) == ToLower(y) <==> SameLetter(x, y)
    {
      LowerIff(x, y);
    }
    if Lower(a.name) == Lower(b.name) {
      forall i | 0 <= i < |a.name|
        ensures SameLetter(a.name[i], b.name[i])
      {
        assert Lower(a.name)[i] == Lower(b.name)[i];
      }
    }
  }

  /** The layers, one by one, around a speech encoder of the specification's format. */
  ghost predicate HasLayers(e: Encoder, spec: SendCodecSpec) {
    var core := e.Core();
    && core.Speech? && core.payloadType == spec.payloadType && SameCodec(core.format, spec.format)
    && match (spec.redPayloadType, spec.cngPayloadType)
       case (None, None) => e == core
       case (None, Some(cng)) => e == Cng(cng, core)
       case (Some(red), None) => e == Red(red, core)
       case (Some(red), Some(cng)) => e == Red(red, Cng(cng, core))
  }

  lemma ShapedIff(e: Encoder, spec: SendCodecSpec)
    ensures Shaped(e, spec) <==> HasLayers(e, spec)
  {
    hide SameFormat, SameCodec;
    CoreIsSpeech(e);
    FormatIff(e.Core().format, spec.format);
  }

  /** What the stream asks the outermost layer. */
  lemma {:induction false} LayerProperties(e: Encoder)
    ensures e.Core().Speech? && e.SampleRateHz() == e.Core().sampleRateHz
    ensures e.NumChannels() == if e.HasCng() then 1 else e.Core().channels
    ensures e.Max10MsFrames() == e.Core().max10MsFrames
  {
    if !e.Speech? {
      LayerProperties(e.inner);
    }
  }

  /** Equal but for what the speech encoder was told. */
  ghost predicate SameLayers(a: Encoder, b: Encoder) {
    match a
    case Speech(_, _, _, _, _, _, _, _, _) =>
      b.Speech? && b == a.(targetBitrate := b.targetBitrate, adaptor := b.adaptor, overhead := b.overhead)
    case Cng(t, e) => b.Cng? && b.payloadType == t && SameLayers(e, b.inner)
    case Red(t, e) => b.Red? && b.payloadType == t && SameLayers(e, b.inner)
  }

  lemma {:induction false} SameLayersReflexive(e: Encoder)
    ensures SameLayers(e, e)
  {
    if !e.Speech? {
      SameLayersReflexive(e.inner);
    }
  }

  lemma {:induction false} SameLayersTransitive(a: Encoder, b: Encoder, c: Encoder)
    requires SameLayers(a, b) && SameLayers(b, c)
    ensures SameLayers(a, c)
  {
    if !a.Speech? {
      SameLayersTransitive(a.inner, b.inner, c.inner);
    }
  }

  lemma {:induction false} SameLayersCore(a: Encoder, b: Encoder)
    requires SameLayers(a, b)
    ensures a.Core().Speech? && b.Core().Speech? && SameLayers(a.Core(), b.Core())
    ensures a.HasCng() == b.HasCng()
  {
    if !a.Speech? {
      SameLayersCore(a.inner, b.inner);
    }
  }

  lemma SameLayersShaped(a: Encoder, b: Encoder, spec: SendCodecSpec)
    requires SameLayers(a, b)
    ensures Shaped(a, spec) <==> Shaped(b, spec)
  {
    SameLayersCore(a, b);
    SameLayersSymmetric(a, b);
    if Shaped(a, spec) {
      SameLayersWrapped(a, b, spec);
    }
    if Shaped(b, spec) {
      SameLayersWrapped(b, a, spec);
    }
  }

  lemma {:induction false} SameLayersSymmetric(a: Encoder, b: Encoder)
    requires SameLayers(a, b)
    ensures SameLayers(b, a)
  {
    if !a.Speech? {
      SameLayersSymmetric(a.inner, b.inner);
    }
  }

  lemma SameLayersWrapped(a: Encoder, b: Encoder, spec: SendCodecSpec)
    requires SameLayers(a, b) && a == Wrapped(spec, a.Core()) && a.Core().Speech?
    ensures b == Wrapped(spec, b.Core())
  {
    var x, y := if spec.redPayloadType.Some? then a.inner else a, if spec.redPayloadType.Some? then b.inner else b;
    assert SameLayers(x, y) && b.Core() == y.Core();
    if spec.cngPayloadType.Some? {
      assert SameLayers(x.inner, y.inner) && y.Core() == y.inner.Core();
    }
  }

  // ---------------------------------------------------------------------
  // What reaches the speech encoder
  // ---------------------------------------------------------------------

  /** The overhead reaches the speech encoder if and only if no comfort-noise encoder is in
      the way. */
  lemma {:induction false} OverheadReaches(e: Encoder, bytes: nat)
    ensures SameLayers(e, e.OnReceivedOverhead(bytes)) && e.Core().Speech?
    ensures e.OnReceivedOverhead(bytes).Core() ==
            if e.HasCng() then e.Core() else e.Core().(overhead := bytes)
  {
    if !e.Speech? {
      OverheadReaches(e.inner, bytes);
      SameLayersReflexive(e);
    }
  }

  /** A target bitrate always does. */
  lemma {:induction false} TargetReaches(e: Encoder, bps: int)
    ensures SameLayers(e, e.OnReceivedTargetAudioBitrate(bps)) && e.Core().Speech?
    ensures e.OnReceivedTargetAudioBitrate(bps).Core() == e.Core().(targetBitrate := Some(bps))
  {
    if !e.Speech? {
      TargetReaches(e.inner, bps);
    }
  }

  lemma {:induction false} AdaptorReaches(e: Encoder, config: string, accepted: bool)
    ensures SameLayers(e, e.EnableAdaptor(config, accepted).0) && e.Core().Speech?
    ensures e.EnableAdaptor(config, accepted).1 == (accepted && !e.HasCng())
    ensures e.EnableAdaptor(config, accepted).0.Core() ==
            if e.HasCng() then e.Core() else e.Core().(adaptor := if accepted then Some(config) else None)
  {
    if !e.Speech? {
      AdaptorReaches(e.inner, config, accepted);
      SameLayersReflexive(e);
    }
  }

  lemma {:induction false} AdaptorRemoved(e: Encoder)
    ensures SameLayers(e, e.DisableAdaptor()) && e.Core().Speech?
    ensures e.DisableAdaptor().Core() == if e.HasCng() then e.Core() else e.Core().(adaptor := None)
  {
    if !e.Speech? {
      AdaptorRemoved(e.inner);
      SameLayersReflexive(e);
    }
  }

  /** ReconfigureANA keeps the layers and the target bitrate, and repeats the overhead to an
      encoder whose adaptor it has just enabled. */
  lemma AnaKeepsLayers(e: Encoder, previous: Config, next: Config, overhead: nat, accepted: bool)
    ensures var r := ReconfigureAna(e, previous, next, overhead, accepted);
            && SameLayers(e, r)
            && r.Core().Speech? && e.Core().Speech?
            && r.Core().targetBitrate == e.Core().targetBitrate
            && r.Core().overhead ==
               if next.audioNetworkAdaptor != previous.audioNetworkAdaptor && next.audioNetworkAdaptor.Some?
                  && accepted && !e.HasCng() && overhead > 0
               then overhead else e.Core().overhead
  {
    SameLayersReflexive(e);
    AdaptorRemoved(e);
    if next.audioNetworkAdaptor.Some? {
      var config := next.audioNetworkAdaptor.value;
      AdaptorReaches(e, config, accepted);
      var e' := e.EnableAdaptor(config, accepted).0;
      OverheadReaches(e', overhead);
      SameLayersCore(e, e');
      SameLayersTransitive(e, e', e'.OnReceivedOverhead(overhead));
    }
  }

  // ---------------------------------------------------------------------
  // Rates the allocator sends
  // ---------------------------------------------------------------------

  /** The same codec, but for the target the speech encoder was last given. */
  ghost predicate Retargeted(k: Codec, k': Codec) {
    && k'.created == k.created && k'.stored == k.stored && (k'.encoder.Some? <==> k.encoder.Some?)
    && (k.encoder.Some? ==>
          && SameLayers(k.encoder.value, k'.encoder.value)
          && k.encoder.value.Core().Speech? && k'.encoder.value.Core().Speech?
          && k'.encoder.value.Core() ==
             k.encoder.value.Core().(targetBitrate := k'.encoder.value.Core().targetBitrate))
  }

  lemma RetargetedReflexive(k: Codec, k': Codec)
    requires k'.encoder == k.encoder && k'.created == k.created && k'.stored == k.stored
    ensures Retargeted(k, k')
  {
    if k.encoder.Some? {
      SameLayersReflexive(k.encoder.value);
      CoreIsSpeech(k.encoder.value);
    }
  }

  lemma RetargetedTransitive(a: Codec, b: Codec, c: Codec)
    requires Retargeted(a, b) && Retargeted(b, c)
    ensures Retargeted(a, c)
  {
    if a.encoder.Some? {
      SameLayersTransitive(a.encoder.value, b.encoder.value, c.encoder.value);
    }
  }

  /** An update reaches the speech encoder through all layers. */
  lemma RateReaches(k: Codec, bps: nat)
    ensures Retargeted(k, TellRate(k, bps))
    ensures k.encoder.Some? ==> TellRate(k, bps).encoder.value.Core().targetBitrate == Some(bps)
  {
    if k.encoder.Some? {
      TargetReaches(k.encoder.value, bps);
    }
  }

  lemma PollRetargets(k: Codec, trials: Trials, limits: Limits, before: Rates, after: Rates, answer: nat)
    ensures Retargeted(TellOverhead(k, before.overhead, after.overhead),
                       PollCodec(k, trials, limits, before, after, answer))
  {
    hide Retargeted, TellRate, ForwardedRate, TellOverhead;
    var told := TellOverhead(k, before.overhead, after.overhead);
    RetargetedReflexive(told, told);
    RateReaches(told, ForwardedRate(trials, limits, after.overhead, after.ranges, answer));
  }

  lemma RetargetKeepsLayers(k: Codec, k': Codec)
    requires Retargeted(k, k') && k.encoder.Some?
    ensures k'.encoder.value.HasCng() == k.encoder.value.HasCng()
    ensures k'.encoder.value.Speech? == k.encoder.value.Speech?
  {
    SameLayersCore(k.encoder.value, k'.encoder.value);
  }

  // ---------------------------------------------------------------------
  // One reconfiguration
  // ---------------------------------------------------------------------

  /** The installed encoder as the updates of one reconfiguration leave it, before the
      comfort-noise layer is looked at. */
  function Updated(e: Encoder, previous: Config, next: Config, overhead: nat, accepted: bool): Encoder
    requires previous.sendCodecSpec.Some? && next.sendCodecSpec.Some?
  {
    var n, o := next.sendCodecSpec.value, previous.sendCodecSpec.value;
    var targeted :=
      if n.targetBitrateBps.Some? && n.targetBitrateBps != o.targetBitrateBps
      then e.OnReceivedTargetAudioBitrate(n.targetBitrateBps.value)
      else e;
    ReconfigureAna(targeted, previous, next, overhead, accepted)
  }

  lemma UpdatedKeepsLayers(e: Encoder, previous: Config, next: Config, overhead: nat, accepted: bool)
    requires previous.sendCodecSpec.Some? && next.sendCodecSpec.Some?
    ensures var n, o := next.sendCodecSpec.value, previous.sendCodecSpec.value;
            var r := Updated(e, previous, next, overhead, accepted);
            && SameLayers(e, r)
            && r.Core().Speech? && e.Core().Speech?
            && r.Core().overhead in [e.Core().overhead, overhead]
            && r.Core().targetBitrate ==
               if n.targetBitrateBps.Some? && n.targetBitrateBps != o.targetBitrateBps
               then n.targetBitrateBps else e.Core().targetBitrate
  {
    var n, o := next.sendCodecSpec.value, previous.sendCodecSpec.value;
    SameLayersReflexive(e);
    if n.targetBitrateBps.Some? && n.targetBitrateBps != o.targetBitrateBps {
      TargetReaches(e, n.targetBitrateBps.value);
      var targeted := e.OnReceivedTargetAudioBitrate(n.targetBitrateBps.value);
      AnaKeepsLayers(targeted, previous, next, overhead, accepted);
      SameLayersTransitive(e, targeted, Updated(e, previous, next, overhead, accepted));
    } else {
      AnaKeepsLayers(e, previous, next, overhead, accepted);
    }
  }

  /** ReconfigureCNG meets a RED encoder: it peels that off instead of the comfort noise. */
  predicate LosesRed(previous: Config, next: Config) {
    && !CodecUnchanged(previous, next) && !NeedsNewEncoder(previous, next)
    && next.sendCodecSpec.value.redPayloadType.Some?
    && next.sendCodecSpec.value.cngPayloadType != previous.sendCodecSpec.value.cngPayloadType
  }

  lemma CngPeelsOneLayer(e: Encoder, o: SendCodecSpec, n: SendCodecSpec)
    requires Shaped(e, o) && SameFormat(n.format, o.format) && n.payloadType == o.payloadType
    requires n.redPayloadType == o.redPayloadType
    requires ReconfigureCng(e, o, n).Running?
    ensures ReconfigureCng(e, o, n).value.Core() == e.Core()
    ensures Shaped(ReconfigureCng(e, o, n).value, n) <==>
            n.redPayloadType.None? || n.cngPayloadType == o.cngPayloadType
  {
    hide SameFormat;
    FormatTransitive(e.Core().format, o.format, n.format);
  }

  lemma FormatTransitive(a: AudioFormat, b: AudioFormat, c: AudioFormat)
    requires SameFormat(a, b) && SameFormat(c, b)
    ensures SameFormat(a, c)
  {
  }

  lemma {:induction false} CoreIsSpeech(e: Encoder)
    ensures e.Core().Speech?
  {
    if !e.Speech? {
      CoreIsSpeech(e.inner);
    }
  }

  /** SetupSendCodec builds the layers asked for, around a speech encoder that was told the
      target bitrate and, if no comfort noise hides it, the overhead. */
  lemma SetupIsShaped(k: Codec, c: Config, overhead: nat, sending: bool, env: Surroundings)
    requires c.sendCodecSpec.Some? && env.created.Some?
    requires SetupSendCodec(k, c, overhead, sending, env).Running?
    ensures var r, spec := SetupSendCodec(k, c, overhead, sending, env).value, c.sendCodecSpec.value;
            && r.encoder.Some? && Shaped(r.encoder.value, spec)
            && r.encoder.value.HasCng() == spec.cngPayloadType.Some?
            && r.created == k.created + 1
            && r.encoder.value.Core().Speech? && r.encoder.value.Core().serial == k.created
            && r.encoder.value.Core().targetBitrate == spec.targetBitrateBps
            && r.encoder.value.Core().overhead == (if spec.cngPayloadType.Some? then 0 else overhead)
            && FromFactory(r.encoder.value.Core(), spec, env.created.value)
            && r.stored == EncoderProperties(env.created.value.sampleRateHz, env.created.value.channels)
            && r.encoder.value.Core().adaptor ==
               (if c.audioNetworkAdaptor.Some? && env.adaptorAccepted then c.audioNetworkAdaptor else None)
  {
    hide Lower;
    var spec, made := c.sendCodecSpec.value, env.created.value;
    var speech := Speech(k.created, spec.format, spec.payloadType, made.sampleRateHz, made.channels,
                         made.max10MsFrames, spec.targetBitrateBps, None, 0);
    var adapted :=
      if c.audioNetworkAdaptor.Some?
      then speech.EnableAdaptor(c.audioNetworkAdaptor.value, env.adaptorAccepted).0
      else speech;
    var red := Wrapped(spec, adapted);
    WrappedCore(spec, adapted);
    assert Shaped(red, spec);
    OverheadReaches(red, overhead);
    SameLayersShaped(red, red.OnReceivedOverhead(overhead), spec);
    SameLayersCore(red, red.OnReceivedOverhead(overhead));
    LayerProperties(red);
    LayerProperties(red.OnReceivedOverhead(overhead));
  }

  /** A speech encoder as the factory made it for a specification. */
  predicate FromFactory(core: Encoder, spec: SendCodecSpec, made: Created) {
    && core.Speech? && core.format == spec.format && core.payloadType == spec.payloadType
    && core.sampleRateHz == made.sampleRateHz && core.channels == made.channels
    && core.max10MsFrames == made.max10MsFrames
  }

  lemma WrappedCore(spec: SendCodecSpec, core: Encoder)
    requires core.Speech?
    ensures Wrapped(spec, core).Core() == core
    ensures Wrapped(spec, core).HasCng() == spec.cngPayloadType.Some?
  {
    assert core.Core() == core && !core.HasCng();
    if spec.cngPayloadType.Some? {
      var cng := Cng(spec.cngPayloadType.value, core);
      assert cng.Core() == core && cng.HasCng();
    }
  }

  lemma CngKeepsCore(e: Encoder, o: SendCodecSpec, n: SendCodecSpec)
    requires ReconfigureCng(e, o, n).Running?
    ensures ReconfigureCng(e, o, n).value.Core() == e.Core()
  {
    assert e.Peeled().Core() == e.Core();
  }

  /** A reconfiguration that does not create an encoder keeps the speech encoder, which still
      knows the overhead it knew or has been told the current one, and knows a target
      bitrate that was given. */
  lemma KeptEncoder(k: Codec, previous: Config, next: Config, overhead: nat, sending: bool, env: Surroundings)
    requires !CodecUnchanged(previous, next) && !NeedsNewEncoder(previous, next) && k.encoder.Some?
    requires ReconfigureSendCodec(k, previous, next, overhead, sending, env).Running?
    ensures var r := ReconfigureSendCodec(k, previous, next, overhead, sending, env).value;
            var n, o := next.sendCodecSpec.value, previous.sendCodecSpec.value;
            var updated := Updated(k.encoder.value, previous, next, overhead, env.adaptorAccepted);
            && r == k.(encoder := r.encoder)
            && ReconfigureCng(updated, o, n).Running? && r.encoder == Some(ReconfigureCng(updated, o, n).value)
            && r.encoder.value.Core() == updated.Core()
            && SameLayers(k.encoder.value, updated)
            && updated.Core().Speech? && k.encoder.value.Core().Speech?
            && updated.Core().serial == k.encoder.value.Core().serial
            && updated.Core().overhead in [k.encoder.value.Core().overhead, overhead]
            && updated.Core().targetBitrate ==
               if n.targetBitrateBps.Some? && n.targetBitrateBps != o.targetBitrateBps
               then n.targetBitrateBps else k.encoder.value.Core().targetBitrate
  {
    hide SameFormat, SameOptionalSpec, ReconfigureAna, ReconfigureCng;
    var updated := Updated(k.encoder.value, previous, next, overhead, env.adaptorAccepted);
    UpdatedKeepsLayers(k.encoder.value, previous, next, overhead, env.adaptorAccepted);
    CngKeepsCore(updated, previous.sendCodecSpec.value, next.sendCodecSpec.value);
    SameLayersCore(k.encoder.value, updated);
  }

  // ---------------------------------------------------------------------
  // Shape
  // ---------------------------------------------------------------------

  ghost predicate CodecShaped(k: Codec, c: Config) {
    c.sendCodecSpec.Some? ==> k.encoder.Some? && Shaped(k.encoder.value, c.sendCodecSpec.value)
  }

  lemma SameSpecShaped(e: Encoder, o: SendCodecSpec, n: SendCodecSpec)
    requires Shaped(e, o) && SameSpec(n, o)
    ensures Shaped(e, n)
  {
    hide SameFormat;
    FormatTransitive(e.Core().format, o.format, n.format);
  }

  /** From a well-shaped encoder, and if the factory delivers when asked, the reconfigured
      encoder is well-shaped exactly when no RED layer was peeled by mistake. */
  lemma ReconfigureShapedIff(k: Codec, previous: Config, next: Config, overhead: nat, sending: bool, env: Surroundings)
    requires CodecShaped(k, previous) && (NeedsNewEncoder(previous, next) ==> env.created.Some?)
    requires ReconfigureSendCodec(k, previous, next, overhead, sending, env).Running?
    ensures CodecShaped(ReconfigureSendCodec(k, previous, next, overhead, sending, env).value, next) <==>
            !LosesRed(previous, next)
  {
    hide SameFormat, Shaped, SameLayers, Updated, SetupSendCodec;
    if CodecUnchanged(previous, next) {
      if next.sendCodecSpec.Some? {
        SameSpecShaped(k.encoder.value, previous.sendCodecSpec.value, next.sendCodecSpec.value);
      }
    } else if NeedsNewEncoder(previous, next) {
      SetupIsShaped(k, next, overhead, sending, env);
    } else {
      var n, o := next.sendCodecSpec.value, previous.sendCodecSpec.value;
      var updated := Updated(k.encoder.value, previous, next, overhead, env.adaptorAccepted);
      KeptEncoder(k, previous, next, overhead, sending, env);
      SameLayersShaped(k.encoder.value, updated, o);
      CngPeelsOneLayer(updated, o, n);
    }
  }

  lemma TellKeepsShape(k: Codec, before: nat, after: nat, c: Config)
    ensures CodecShaped(TellOverhead(k, before, after), c) <==> CodecShaped(k, c)
  {
    hide Shaped, SameLayers;
    if k.encoder.Some? && c.sendCodecSpec.Some? {
      OverheadReaches(k.encoder.value, after);
      SameLayersShaped(k.encoder.value, k.encoder.value.OnReceivedOverhead(after), c.sendCodecSpec.value);
    }
  }

  /** What an operation does to the codec before any overhead or rate is passed on. */
  function Recoded(s: Stream, op: Op): Outcome<Codec> {
    if op.OpReconfigure?
    then ReconfigureSendCodec(s.codec, s.config, op.config, s.rates.overhead, s.sending, op.env)
    else Running(s.codec)
  }

  /** What each operation of the stream does to its codec. */
  lemma StepCodec(s: Stream, op: Op)
    requires Step(s, op).Running?
    ensures var s' := Step(s, op).value;
            && s'.config == (if op.OpReconfigure? then op.config else s.config)
            && Recoded(s, op).Running?
            && Retargeted(TellOverhead(Recoded(s, op).value, s.rates.overhead, s'.rates.overhead), s'.codec)
  {
    hide ConfigureStream, PollOverhead, TellRate, AllocationFor, Retargeted, ReconfigureSendCodec, ForwardedRate;
    match op
    case OpReconfigure(c, env) => {
      ReconfigureCodec(s, c, env);
    }
    case OpStart(answer) => {
      var bps := ForwardedRate(s.trials, s.config.limits, s.rates.overhead, s.rates.ranges, answer);
      RateReaches(s.codec, bps);
      var answered := TellRate(s.codec, bps);
      RetargetedReflexive(answered, answered.(audioState := Some(s.codec.stored)));
      RetargetedTransitive(s.codec, answered, answered.(audioState := Some(s.codec.stored)));
      RetargetedReflexive(s.codec, s.codec);
      RetargetedReflexive(s.codec, s.codec.(audioState := Some(s.codec.stored)));
    }
    case OpStop => {
      RetargetedReflexive(s.codec, Step(s, op).value.codec);
    }
    case OpSetTransportOverhead(bytes, moduleOverhead, answer) => {
      PollsCodec(s.(rates := s.rates.(transportOverhead := bytes)), moduleOverhead, answer);
    }
    case OpDeliverRtcp(moduleOverhead, answer) => {
      PollsCodec(s, moduleOverhead, answer);
    }
    case OpBitrateUpdated(target) => {
      RateReaches(s.codec, Forwarded(s, target));
    }
  }

  lemma PollsCodec(s: Stream, moduleOverhead: nat, answer: nat)
    requires PollOverhead(s, moduleOverhead, answer).Running?
    ensures var s' := PollOverhead(s, moduleOverhead, answer).value;
            && s'.config == s.config
            && Retargeted(TellOverhead(s.codec, s.rates.overhead, s'.rates.overhead), s'.codec)
  {
    hide UpdateOverhead, PollCodec, TellOverhead, Retargeted;
    var rates := UpdateOverhead(s.trials, s.config.limits, s.rates, moduleOverhead).value;
    PollRetargets(s.codec, s.trials, s.config.limits, s.rates, rates, answer);
  }

  lemma ObserverKeepsOverhead(trials: Trials, r: Rates, previous: Config, next: Config)
    requires ReconfigureBitrateObserver(trials, r, previous, next).Running?
    ensures var r' := ReconfigureBitrateObserver(trials, r, previous, next).value;
            r'.overhead == r.overhead && r'.channelOverhead == r.channelOverhead && r'.ranges == r.ranges
            && r'.transportOverhead == r.transportOverhead
  {
    hide AllocationFor, ObserverUnchanged;
  }

  lemma ReconfigureCodec(s: Stream, c: Config, env: Surroundings)
    requires ConfigureStream(s, c, false, env).Running?
    ensures var s' := ConfigureStream(s, c, false, env).value;
            var r := ReconfigureSendCodec(s.codec, s.config, c, s.rates.overhead, s.sending, env);
            && s'.config == c && r.Running?
            && Retargeted(TellOverhead(r.value, s.rates.overhead, s'.rates.overhead), s'.codec)
  {
    hide ConfigureLinks, ReconfigureSendCodec, UpdateOverhead, ReconfigureBitrateObserver, PollCodec, TellOverhead,
         TellRate, ReadRanges, Retargeted, AsksForLimits, ForwardedRate;
    var k := ReconfigureSendCodec(s.codec, s.config, c, s.rates.overhead, s.sending, env).value;
    var rates := UpdateOverhead(s.trials, s.config.limits, s.rates, env.moduleOverhead).value;
    var told := PollCodec(k, s.trials, s.config.limits, s.rates, rates, env.overheadAnswer);
    var ranged := rates.(ranges := ReadRanges(told, env, rates.ranges));
    PollRetargets(k, s.trials, s.config.limits, s.rates, rates, env.overheadAnswer);
    if s.sending {
      ObserverKeepsOverhead(s.trials, ranged, s.config, c);
      var observed := ReconfigureBitrateObserver(s.trials, ranged, s.config, c).value;
      var bps := ForwardedRate(s.trials, c.limits, observed.overhead, observed.ranges, env.limitsAnswer);
      RateReaches(told, bps);
      RetargetedTransitive(TellOverhead(k, s.rates.overhead, rates.overhead), told, TellRate(told, bps));
    }
  }

  lemma ReconfigureKeepsOverhead(s: Stream, c: Config, env: Surroundings)
    requires ConfigureStream(s, c, false, env).Running?
    ensures var s' := ConfigureStream(s, c, false, env).value;
            var r := UpdateOverhead(s.trials, s.config.limits, s.rates, env.moduleOverhead);
            r.Running? && s'.rates.overhead == r.value.overhead && s'.rates.channelOverhead == r.value.channelOverhead
            && s'.rates.transportOverhead == r.value.transportOverhead
  {
    hide ConfigureLinks, ReconfigureSendCodec, PollCodec, TellRate, ReconfigureBitrateObserver, UpdateOverhead,
         ReadRanges, AsksForLimits, ForwardedRate;
    var k := ReconfigureSendCodec(s.codec, s.config, c, s.rates.overhead, s.sending, env).value;
    var rates := UpdateOverhead(s.trials, s.config.limits, s.rates, env.moduleOverhead).value;
    var told := PollCodec(k, s.trials, s.config.limits, s.rates, rates, env.overheadAnswer);
    if s.sending {
      ObserverKeepsOverhead(s.trials, rates.(ranges := ReadRanges(told, env, rates.ranges)), s.config, c);
    }
  }

  /** The overhead after an operation, read off before it. */
  function OverheadAfter(s: Stream, op: Op): nat {
    match op
    case OpReconfigure(_, env) => s.rates.transportOverhead + env.moduleOverhead
    case OpStart(_) => s.rates.overhead
    case OpStop => s.rates.overhead
    case OpSetTransportOverhead(bytes, moduleOverhead, _) => bytes + moduleOverhead
    case OpDeliverRtcp(moduleOverhead, _) => s.rates.transportOverhead + moduleOverhead
    case OpBitrateUpdated(_) => s.rates.overhead
  }

  lemma UpdateSetsOverhead(trials: Trials, limits: Limits, r: Rates, moduleOverhead: nat)
    requires UpdateOverhead(trials, limits, r, moduleOverhead).Running?
    ensures UpdateOverhead(trials, limits, r, moduleOverhead).value.overhead == r.transportOverhead + moduleOverhead
    ensures UpdateOverhead(trials, limits, r, moduleOverhead).value.transportOverhead == r.transportOverhead
  {
    hide AllocationFor;
  }

  lemma OverheadForeseen(s: Stream, op: Op)
    requires Step(s, op).Running?
    ensures Step(s, op).value.rates.overhead == OverheadAfter(s, op)
    ensures Step(s, op).value.rates.transportOverhead ==
            if op.OpSetTransportOverhead? then op.bytes else s.rates.transportOverhead
  {
    hide ConfigureStream, UpdateOverhead, AllocationFor, PollCodec, TellRate, ForwardedRate;
    match op
    case OpReconfigure(c, env) => {
      ReconfigureKeepsOverhead(s, c, env);
      UpdateSetsOverhead(s.trials, s.config.limits, s.rates, env.moduleOverhead);
    }
    case OpStart(_) => {}
    case OpStop => {}
    case OpSetTransportOverhead(bytes, moduleOverhead, _) => {
      UpdateSetsOverhead(s.trials, s.config.limits, s.rates.(transportOverhead := bytes), moduleOverhead);
    }
    case OpDeliverRtcp(moduleOverhead, _) => {
      UpdateSetsOverhead(s.trials, s.config.limits, s.rates, moduleOverhead);
    }
    case OpBitrateUpdated(_) => {}
  }

  // ---------------------------------------------------------------------
  // The layers after a reconfiguration, read off before it
  // ---------------------------------------------------------------------

  predicate Recreates(previous: Config, next: Config, env: Surroundings) {
    NeedsNewEncoder(previous, next) && env.created.Some?
  }

  /** The comfort-noise layer of an encoder that stays is put on, exchanged or taken off. */
  predicate ChangesNoise(previous: Config, next: Config) {
    && !CodecUnchanged(previous, next) && !NeedsNewEncoder(previous, next)
    && next.sendCodecSpec.value.cngPayloadType != previous.sendCodecSpec.value.cngPayloadType
  }

  /** An encoder with a comfort-noise layer will be installed. */
  predicate NoisyAfter(e: Option<Encoder>, previous: Config, next: Config, env: Surroundings) {
    if Recreates(previous, next, env) then next.sendCodecSpec.value.cngPayloadType.Some?
    else
      && e.Some?
      && if ChangesNoise(previous, next)
         then next.sendCodecSpec.value.cngPayloadType.Some? || e.value.Peeled().HasCng()
         else e.value.HasCng()
  }

  /** A speech encoder without layers will be installed. */
  predicate BareAfter(e: Option<Encoder>, previous: Config, next: Config, env: Surroundings) {
    if Recreates(previous, next, env)
    then next.sendCodecSpec.value.cngPayloadType.None? && next.sendCodecSpec.value.redPayloadType.None?
    else
      && e.Some?
      && if ChangesNoise(previous, next)
         then next.sendCodecSpec.value.cngPayloadType.None? && e.value.Peeled().Speech?
         else e.value.Speech?
  }

  lemma LayersForeseen(k: Codec, previous: Config, next: Config, overhead: nat, sending: bool, env: Surroundings)
    requires ReconfigureSendCodec(k, previous, next, overhead, sending, env).Running?
    ensures var e := ReconfigureSendCodec(k, previous, next, overhead, sending, env).value.encoder;
            && (e.Some? <==> k.encoder.Some? || Recreates(previous, next, env))
            && (e.Some? && e.value.HasCng() <==> NoisyAfter(k.encoder, previous, next, env))
            && (e.Some? && e.value.Speech? <==> BareAfter(k.encoder, previous, next, env))
  {
    hide NeedsNewEncoder, CodecUnchanged, SetupSendCodec, Updated, SameFormat;
    CodecChoice(k, previous, next, overhead, sending, env);
    if Recreates(previous, next, env) {
      SetupIsShaped(k, next, overhead, sending, env);
    } else if !CodecUnchanged(previous, next) && !NeedsNewEncoder(previous, next) && k.encoder.Some? {
      SpecsOfKept(previous, next);
      KeptEncoder(k, previous, next, overhead, sending, env);
      var updated := Updated(k.encoder.value, previous, next, overhead, env.adaptorAccepted);
      SameLayersCore(k.encoder.value, updated);
      SameLayersCore(k.encoder.value.Peeled(), updated.Peeled());
    }
  }

  lemma SpecsOfKept(previous: Config, next: Config)
    requires !CodecUnchanged(previous, next) && !NeedsNewEncoder(previous, next)
    ensures previous.sendCodecSpec.Some? && next.sendCodecSpec.Some?
  {
    hide SameFormat, SameOptionalSpec;
  }

  lemma TellKeepsLayers(k: Codec, before: nat, after: nat)
    ensures var e := TellOverhead(k, before, after).encoder;
            && (e.Some? <==> k.encoder.Some?)
            && (e.Some? ==> e.value.HasCng() == k.encoder.value.HasCng() && e.value.Speech? == k.encoder.value.Speech?)
  {
    if k.encoder.Some? {
      OverheadReaches(k.encoder.value, after);
      SameLayersCore(k.encoder.value, k.encoder.value.OnReceivedOverhead(after));
    }
  }

  ghost predicate NoRed(c: Config) {
    c.sendCodecSpec.Some? ==> c.sendCodecSpec.value.redPayloadType.None?
  }

  ghost predicate FactoryDelivers(ops: seq<Op>) {
    forall i :: 0 <= i < |ops| && ops[i].OpReconfigure? ==> ops[i].env.created.Some?
  }

  ghost predicate RedNeverUsed(c: Config, ops: seq<Op>) {
    NoRed(c) && forall i :: 0 <= i < |ops| && ops[i].OpReconfigure? ==> NoRed(ops[i].config)
  }

  /** In every run without RED whose factory delivers, the installed encoder is always the
      speech encoder of the current format and payload type, inside one comfort-noise
      encoder with the current payload type if there is one and bare otherwise. */
  lemma {:induction false} RunShaped(trials: Trials, c: Config, env: Surroundings, ops: seq<Op>)
    requires Run(trials, c, env, ops).Running?
    requires env.created.Some? && FactoryDelivers(ops) && RedNeverUsed(c, ops)
    ensures var s := Run(trials, c, env, ops).value;
            && CodecShaped(s.codec, s.config) && NoRed(s.config)
            && (s.config.sendCodecSpec.Some? ==>
                  s.codec.encoder.Some? && HasLayers(s.codec.encoder.value, s.config.sendCodecSpec.value))
    decreases |ops|
  {
    ShapedHasLayers();
    hide ConfigureStream, Step, CodecShaped;
    if ops == [] {
      ConstructShaped(trials, c, env);
    } else {
      var before, op := Run(trials, c, env, ops[..|ops| - 1]).value, ops[|ops| - 1];
      RunShaped(trials, c, env, ops[..|ops| - 1]);
      StepShapedIff(before, op);
      StepCodec(before, op);
    }
  }

  lemma ShapedHasLayers()
    ensures forall k: Codec, c: Config ::
              CodecShaped(k, c) && c.sendCodecSpec.Some? ==>
                k.encoder.Some? && HasLayers(k.encoder.value, c.sendCodecSpec.value)
  {
    hide Shaped, HasLayers;
    forall k: Codec, c: Config | CodecShaped(k, c) && c.sendCodecSpec.Some?
      ensures k.encoder.Some? && HasLayers(k.encoder.value, c.sendCodecSpec.value)
    {
      ShapedIff(k.encoder.value, c.sendCodecSpec.value);
    }
  }

  /** The configuration in force after the operations. */
  function ConfigAfter(c: Config, ops: seq<Op>): Config {
    if ops == [] then c
    else
      var op := ops[|ops| - 1];
      if op.OpReconfigure? then op.config else ConfigAfter(c, ops[..|ops| - 1])
  }

  /** No reconfiguration changes comfort noise under RED without replacing the encoder. */
  predicate NeverLosesRed(c: Config, ops: seq<Op>) {
    ops != [] ==>
      var before, op := ops[..|ops| - 1], ops[|ops| - 1];
      NeverLosesRed(c, before) && (op.OpReconfigure? ==> !LosesRed(ConfigAfter(c, before), op.config))
  }

  /** The encoder is well-shaped after construction and after each of the operations. */
  ghost predicate ShapedThroughout(trials: Trials, c: Config, env: Surroundings, ops: seq<Op>) {
    && (ops != [] ==> ShapedThroughout(trials, c, env, ops[..|ops| - 1]))
    && (Run(trials, c, env, ops).Running? ==>
          CodecShaped(Run(trials, c, env, ops).value.codec, Run(trials, c, env, ops).value.config))
  }

  /** With RED, over whole runs: the encoder is always well-shaped if and only if no
      reconfiguration changes comfort noise under RED without replacing the encoder. */
  lemma {:induction false} RunShapedIff(trials: Trials, c: Config, env: Surroundings, ops: seq<Op>)
    requires Run(trials, c, env, ops).Running?
    requires env.created.Some? && FactoryDelivers(ops)
    ensures ShapedThroughout(trials, c, env, ops) <==> NeverLosesRed(c, ops)
    ensures Run(trials, c, env, ops).value.config == ConfigAfter(c, ops)
    decreases |ops|
  {
    hide Construct, Step, CodecShaped, LosesRed;
    if ops == [] {
      ConstructShaped(trials, c, env);
    } else {
      var before, op := ops[..|ops| - 1], ops[|ops| - 1];
      var s := Run(trials, c, env, before).value;
      RunShapedIff(trials, c, env, before);
      StepCodec(s, op);
      if CodecShaped(s.codec, s.config) {
        StepShapedIff(s, op);
      }
    }
  }

  /** A step from a well-shaped encoder leads to another one exactly when it loses no RED
      layer. */
  lemma StepShapedIff(s: Stream, op: Op)
    requires Step(s, op).Running? && CodecShaped(s.codec, s.config)
    requires op.OpReconfigure? ==> op.env.created.Some?
    ensures CodecShaped(Step(s, op).value.codec, Step(s, op).value.config) <==>
            (op.OpReconfigure? ==> !LosesRed(s.config, op.config))
  {
    hide Step, ReconfigureSendCodec, TellOverhead, CodecShaped, LosesRed, Retargeted;
    StepCodec(s, op);
    var s' := Step(s, op).value;
    var k := Recoded(s, op).value;
    if op.OpReconfigure? {
      ReconfigureShapedIff(s.codec, s.config, op.config, s.rates.overhead, s.sending, op.env);
    }
    TellKeepsShape(k, s.rates.overhead, s'.rates.overhead, s'.config);
    RetargetKeepsShape(TellOverhead(k, s.rates.overhead, s'.rates.overhead), s'.codec, s'.config);
  }

  lemma RetargetKeepsShape(k: Codec, k': Codec, c: Config)
    requires Retargeted(k, k')
    ensures CodecShaped(k', c) <==> CodecShaped(k, c)
  {
    hide Shaped;
    if k.encoder.Some? && c.sendCodecSpec.Some? {
      SameLayersShaped(k.encoder.value, k'.encoder.value, c.sendCodecSpec.value);
    }
  }

  lemma ConstructCodec(trials: Trials, c: Config, env: Surroundings)
    requires Construct(trials, c, env).Running?
    ensures var s, k := Construct(trials, c, env).value, NewStream(trials).codec;
            && s.config == c && s.rates.overhead == env.moduleOverhead
            && (c.sendCodecSpec.None? ==> s.codec == k)
            && (c.sendCodecSpec.Some? ==>
                  var r := SetupSendCodec(k, c, 0, false, env);
                  r.Running? && s.codec == TellOverhead(r.value, 0, env.moduleOverhead))
  {
    hide ConfigureLinks, SetupSendCodec, AllocationFor;
  }

  lemma ConstructShaped(trials: Trials, c: Config, env: Surroundings)
    requires Construct(trials, c, env).Running? && env.created.Some?
    ensures CodecShaped(Construct(trials, c, env).value.codec, c) && Construct(trials, c, env).value.config == c
  {
    hide Construct, SetupSendCodec, TellOverhead, Shaped;
    ConstructCodec(trials, c, env);
    if c.sendCodecSpec.Some? {
      SetupIsShaped(NewStream(trials).codec, c, 0, false, env);
      var r := SetupSendCodec(NewStream(trials).codec, c, 0, false, env).value;
      TellKeepsShape(r, 0, env.moduleOverhead, c);
    }
  }

  /** Speech encoders are numbered in the order of creation. */
  ghost predicate SerialsInOrder(k: Codec) {
    k.encoder.Some? ==> k.encoder.value.Core().Speech? && k.encoder.value.Core().serial < k.created
  }

  /** A configuration with a codec that was not there before, or has another format, payload
      type or RED payload type. */
  ghost predicate Replaces(previous: Config, next: Config) {
    next.sendCodecSpec.Some? &&
      (previous.sendCodecSpec.Some? ==>
         var n, o := next.sendCodecSpec.value, previous.sendCodecSpec.value;
         !SameCodec(n.format, o.format) || n.payloadType != o.payloadType || n.redPayloadType != o.redPayloadType)
  }

  lemma ReplacesIff(previous: Config, next: Config)
    ensures NeedsNewEncoder(previous, next) <==> Replaces(previous, next)
  {
    hide SameFormat, SameCodec;
    if previous.sendCodecSpec.Some? && next.sendCodecSpec.Some? {
      FormatIff(next.sendCodecSpec.value.format, previous.sendCodecSpec.value.format);
    }
  }

  /** The speech encoder is replaced exactly when the configuration asks for another format,
      payload type or RED payload type and the factory delivers, and then by what the
      factory made; otherwise the same one stays, whatever is wrapped around it. */
  lemma SpeechEncoderReplacedIff(s: Stream, c: Config, env: Surroundings)
    requires Step(s, OpReconfigure(c, env)).Running? && SerialsInOrder(s.codec)
    ensures var k := Step(s, OpReconfigure(c, env)).value.codec;
            && SerialsInOrder(k)
            && (s.codec.encoder.Some? ==>
                  && k.encoder.Some?
                  && (k.encoder.value.Core().serial != s.codec.encoder.value.Core().serial <==>
                      Replaces(s.config, c) && env.created.Some?))
            && (Replaces(s.config, c) && env.created.Some? ==>
                  k.encoder.Some? && FromFactory(k.encoder.value.Core(), c.sendCodecSpec.value, env.created.value))
  {
    hide Step, NeedsNewEncoder, CodecUnchanged, SameLayers, SetupSendCodec, Shaped, Replaces;
    var op := OpReconfigure(c, env);
    var overhead := s.rates.overhead;
    ReplacesIff(s.config, c);
    StepCodec(s, op);
    CodecChoice(s.codec, s.config, c, overhead, s.sending, env);
    var r := Recoded(s, op).value;
    if NeedsNewEncoder(s.config, c) && env.created.Some? {
      SetupIsShaped(s.codec, c, overhead, s.sending, env);
    } else if !CodecUnchanged(s.config, c) && !NeedsNewEncoder(s.config, c) && s.codec.encoder.Some? {
      KeptEncoder(s.codec, s.config, c, overhead, s.sending, env);
    }
    if r.encoder.Some? {
      OverheadReaches(r.encoder.value, Step(s, op).value.rates.overhead);
    }
  }

  lemma {:induction false} RunSerialsInOrder(trials: Trials, c: Config, env: Surroundings, ops: seq<Op>)
    requires Run(trials, c, env, ops).Running?
    ensures SerialsInOrder(Run(trials, c, env, ops).value.codec)
    decreases |ops|
  {
    hide Step, Construct, SetupSendCodec, TellOverhead, Shaped;
    if ops == [] {
      ConstructCodec(trials, c, env);
      var k := NewStream(trials).codec;
      if c.sendCodecSpec.Some? {
        if env.created.Some? {
          SetupIsShaped(k, c, 0, false, env);
        }
        SetupFails(k, c, 0, false, env);
        TellKeepsSerial(SetupSendCodec(k, c, 0, false, env).value, 0, env.moduleOverhead);
      }
    } else {
      var s, op := Run(trials, c, env, ops[..|ops| - 1]).value, ops[|ops| - 1];
      RunSerialsInOrder(trials, c, env, ops[..|ops| - 1]);
      StepCodec(s, op);
      if op.OpReconfigure? {
        SpeechEncoderReplacedIff(s, op.config, op.env);
      } else {
        TellKeepsSerial(s.codec, s.rates.overhead, Step(s, op).value.rates.overhead);
        var told := TellOverhead(s.codec, s.rates.overhead, Step(s, op).value.rates.overhead);
        assert Retargeted(told, Step(s, op).value.codec);
      }
    }
  }

  lemma SetupFails(k: Codec, c: Config, overhead: nat, sending: bool, env: Surroundings)
    requires c.sendCodecSpec.Some?
    ensures env.created.None? ==> SetupSendCodec(k, c, overhead, sending, env) == Running(k)
  {
  }

  lemma TellKeepsSerial(k: Codec, before: nat, after: nat)
    requires SerialsInOrder(k)
    ensures SerialsInOrder(TellOverhead(k, before, after))
  {
    if k.encoder.Some? {
      OverheadReaches(k.encoder.value, after);
    }
  }

  lemma CodecChoice(k: Codec, previous: Config, next: Config, overhead: nat, sending: bool, env: Surroundings)
    ensures NeedsNewEncoder(previous, next) ==> !CodecUnchanged(previous, next) && next.sendCodecSpec.Some?
    ensures var r := ReconfigureSendCodec(k, previous, next, overhead, sending, env);
            && (CodecUnchanged(previous, next) ==> r == Running(k))
            && (NeedsNewEncoder(previous, next) ==> r == SetupSendCodec(k, next, overhead, sending, env))
            && (NeedsNewEncoder(previous, next) && env.created.None? ==> r == Running(k))
  {
    hide SameFormat, SameOptionalSpec;
  }

  // ---------------------------------------------------------------------
  // Stored properties
  // ---------------------------------------------------------------------

  /** The stream has stored the sample rate and channels of the installed speech encoder. */
  ghost predicate StoredKnown(k: Codec) {
    k.encoder.Some? ==>
      && k.encoder.value.Core().Speech?
      && k.stored == EncoderProperties(k.encoder.value.Core().sampleRateHz, k.encoder.value.Core().channels)
  }

  lemma TellKeepsStored(k: Codec, before: nat, after: nat)
    requires StoredKnown(k)
    ensures StoredKnown(TellOverhead(k, before, after))
  {
    if k.encoder.Some? {
      OverheadReaches(k.encoder.value, after);
    }
  }

  lemma RecodedStored(s: Stream, op: Op)
    requires StoredKnown(s.codec) && Recoded(s, op).Running?
    ensures StoredKnown(Recoded(s, op).value)
  {
    hide NeedsNewEncoder, CodecUnchanged, SetupSendCodec, Updated, Shaped, SameLayers;
    if op.OpReconfigure? {
      var c, env, overhead := op.config, op.env, s.rates.overhead;
      CodecChoice(s.codec, s.config, c, overhead, s.sending, env);
      if NeedsNewEncoder(s.config, c) && env.created.Some? {
        SetupIsShaped(s.codec, c, overhead, s.sending, env);
      } else if !CodecUnchanged(s.config, c) && !NeedsNewEncoder(s.config, c) && s.codec.encoder.Some? {
        SpecsOfKept(s.config, c);
        KeptEncoder(s.codec, s.config, c, overhead, s.sending, env);
        var updated := Updated(s.codec.encoder.value, s.config, c, overhead, env.adaptorAccepted);
        SameLayersCore(s.codec.encoder.value, updated);
        SameCoreProperties(s.codec.encoder.value.Core(), updated.Core());
      }
    }
  }

  lemma SameCoreProperties(a: Encoder, b: Encoder)
    requires SameLayers(a, b) && a.Speech?
    ensures b.Speech? && b.sampleRateHz == a.sampleRateHz && b.channels == a.channels
  {
  }

  /** In every run the stored properties are those of the installed speech encoder, whatever is
      wrapped around it; AudioState gets them while the stream is sending. */
  lemma {:induction false} RunStored(trials: Trials, c: Config, env: Surroundings, ops: seq<Op>)
    requires Run(trials, c, env, ops).Running?
    ensures StoredKnown(Run(trials, c, env, ops).value.codec)
    decreases |ops|
  {
    hide Construct, Step, SetupSendCodec, TellOverhead, Shaped, ReconfigureSendCodec;
    if ops == [] {
      ConstructCodec(trials, c, env);
      var k := NewStream(trials).codec;
      if c.sendCodecSpec.Some? {
        SetupFails(k, c, 0, false, env);
        if env.created.Some? {
          SetupIsShaped(k, c, 0, false, env);
        }
        TellKeepsStored(SetupSendCodec(k, c, 0, false, env).value, 0, env.moduleOverhead);
      }
    } else {
      var s, op := Run(trials, c, env, ops[..|ops| - 1]).value, ops[|ops| - 1];
      RunStored(trials, c, env, ops[..|ops| - 1]);
      StepCodec(s, op);
      RecodedStored(s, op);
      TellKeepsStored(Recoded(s, op).value, s.rates.overhead, Step(s, op).value.rates.overhead);
    }
  }
}
