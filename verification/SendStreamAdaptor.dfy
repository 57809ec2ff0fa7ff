/** The audio network adaptor of an audio send stream's speech encoder. */
module SendStreamAdaptor {
  import opened Basics
  import opened RtpExtensions
  import opened SendStreamModel
  import opened SendStreamEncoder

  ghost function Adaptor(k: Codec): Option<string>
    requires k.encoder.Some?
  {
    CoreIsSpeech(k.encoder.value);
    k.encoder.value.Core().adaptor
  }

  /** The installed speech encoder runs the adaptor the configuration asks for, or none. */
  ghost predicate AdaptorKnown(k: Codec, c: Config) {
    k.encoder.Some? ==> Adaptor(k) == c.audioNetworkAdaptor
  }

  /** ReconfigureANA changes the adaptor of a speech encoder without comfort noise. */
  lemma AnaAdaptor(e: Encoder, previous: Config, next: Config, overhead: nat, accepted: bool)
    ensures var r := ReconfigureAna(e, previous, next, overhead, accepted);
            && r.Core().Speech? && e.Core().Speech?
            && r.Core().adaptor ==
               if next.audioNetworkAdaptor == previous.audioNetworkAdaptor || e.HasCng() then e.Core().adaptor
               else if next.audioNetworkAdaptor.Some? && accepted then next.audioNetworkAdaptor else None
  {
    CoreIsSpeech(e);
    AdaptorRemoved(e);
    if next.audioNetworkAdaptor.Some? {
      var config := next.audioNetworkAdaptor.value;
      AdaptorReaches(e, config, accepted);
      OverheadReaches(e.EnableAdaptor(config, accepted).0, overhead);
    }
  }

  lemma UpdatedAdaptor(e: Encoder, previous: Config, next: Config, overhead: nat, accepted: bool)
    requires previous.sendCodecSpec.Some? && next.sendCodecSpec.Some?
    ensures var r := Updated(e, previous, next, overhead, accepted);
            && r.Core().Speech? && e.Core().Speech?
            && r.Core().adaptor ==
               if next.audioNetworkAdaptor == previous.audioNetworkAdaptor || e.HasCng() then e.Core().adaptor
               else if next.audioNetworkAdaptor.Some? && accepted then next.audioNetworkAdaptor else None
  {
    hide ReconfigureAna;
    var n, o := next.sendCodecSpec.value, previous.sendCodecSpec.value;
    if n.targetBitrateBps.Some? && n.targetBitrateBps != o.targetBitrateBps {
      TargetReaches(e, n.targetBitrateBps.value);
      var targeted := e.OnReceivedTargetAudioBitrate(n.targetBitrateBps.value);
      SameLayersCore(e, targeted);
      AnaAdaptor(targeted, previous, next, overhead, accepted);
    } else {
      AnaAdaptor(e, previous, next, overhead, accepted);
    }
  }

  /** The operation leaves no encoder, or a new one that accepts the adaptor asked for, or an
      old one whose adaptor need not change or can be changed: the codec is configured,
      comfort noise is not in the way and the encoder accepts. */
  ghost predicate StepAdapts(s: Stream, op: Op) {
    op.OpReconfigure? ==>
      var c, env := op.config, op.env;
      if Replaces(s.config, c) && env.created.Some? then c.audioNetworkAdaptor.None? || env.adaptorAccepted
      else
        || s.codec.encoder.None?
        || c.audioNetworkAdaptor == s.config.audioNetworkAdaptor
        || (&& c.sendCodecSpec.Some? && !Replaces(s.config, c) && !s.codec.encoder.value.HasCng()
            && (c.audioNetworkAdaptor.None? || env.adaptorAccepted))
  }

  lemma RecodedAdaptor(s: Stream, op: Op)
    requires AdaptorKnown(s.codec, s.config) && op.OpReconfigure? && Recoded(s, op).Running?
    ensures AdaptorKnown(Recoded(s, op).value, op.config) <==> StepAdapts(s, op)
  {
    hide NeedsNewEncoder, SetupSendCodec, Updated, Shaped, SameLayers, SameFormat, Replaces, SameOptionalSpec;
    var c, env, overhead := op.config, op.env, s.rates.overhead;
    ReplacesIff(s.config, c);
    CodecChoice(s.codec, s.config, c, overhead, s.sending, env);
    if NeedsNewEncoder(s.config, c) && env.created.Some? {
      SetupIsShaped(s.codec, c, overhead, s.sending, env);
    } else if !CodecUnchanged(s.config, c) && !NeedsNewEncoder(s.config, c) && s.codec.encoder.Some? {
      SpecsOfKept(s.config, c);
      KeptEncoder(s.codec, s.config, c, overhead, s.sending, env);
      UpdatedAdaptor(s.codec.encoder.value, s.config, c, overhead, env.adaptorAccepted);
    }
  }

  lemma TellKeepsAdaptor(k: Codec, before: nat, after: nat, c: Config)
    ensures AdaptorKnown(TellOverhead(k, before, after), c) <==> AdaptorKnown(k, c)
  {
    if k.encoder.Some? {
      OverheadReaches(k.encoder.value, after);
    }
  }

  lemma RetargetKeepsAdaptor(k: Codec, k': Codec, c: Config)
    requires Retargeted(k, k')
    ensures AdaptorKnown(k', c) <==> AdaptorKnown(k, c)
  {
  }

  /** The adaptor mirror, exactly, on what is known before the operation. */
  lemma AdaptorKnownIff(s: Stream, op: Op)
    requires Step(s, op).Running? && AdaptorKnown(s.codec, s.config)
    ensures AdaptorKnown(Step(s, op).value.codec, Step(s, op).value.config) <==> StepAdapts(s, op)
  {
    hide Step, ReconfigureSendCodec, TellOverhead, AdaptorKnown, StepAdapts, Retargeted;
    StepCodec(s, op);
    var s', k := Step(s, op).value, Recoded(s, op).value;
    TellKeepsAdaptor(k, s.rates.overhead, s'.rates.overhead, s'.config);
    RetargetKeepsAdaptor(TellOverhead(k, s.rates.overhead, s'.rates.overhead), s'.codec, s'.config);
    if op.OpReconfigure? {
      RecodedAdaptor(s, op);
    } else {
      Undisturbed(s, op);
    }
  }

  lemma Undisturbed(s: Stream, op: Op)
    requires !op.OpReconfigure?
    ensures StepAdapts(s, op)
  {
  }

  predicate ConstructionAdapts(c: Config, env: Surroundings) {
    c.sendCodecSpec.None? || env.created.None? || c.audioNetworkAdaptor.None? || env.adaptorAccepted
  }

  lemma ConstructAdaptorIff(trials: Trials, c: Config, env: Surroundings)
    requires Construct(trials, c, env).Running?
    ensures var s := Construct(trials, c, env).value;
            s.config == c && (AdaptorKnown(s.codec, c) <==> ConstructionAdapts(c, env))
  {
    hide Construct, SetupSendCodec, Shaped, TellOverhead;
    ConstructCodec(trials, c, env);
    if c.sendCodecSpec.Some? {
      var k := NewStream(trials).codec;
      SetupFails(k, c, 0, false, env);
      if env.created.Some? {
        SetupIsShaped(k, c, 0, false, env);
      }
      TellKeepsAdaptor(SetupSendCodec(k, c, 0, false, env).value, 0, env.moduleOverhead, c);
    }
  }

  /** Construction and each of the operations meet their condition. */
  ghost predicate AllAdapt(trials: Trials, c: Config, env: Surroundings, ops: seq<Op>) {
    if ops == [] then ConstructionAdapts(c, env)
    else
      var before := ops[..|ops| - 1];
      && AllAdapt(trials, c, env, before)
      && (Run(trials, c, env, before).Running? ==> StepAdapts(Run(trials, c, env, before).value, ops[|ops| - 1]))
  }

  /** The adaptor is the configured one after construction and after each operation. */
  ghost predicate AdaptedThroughout(trials: Trials, c: Config, env: Surroundings, ops: seq<Op>) {
    && (ops != [] ==> AdaptedThroughout(trials, c, env, ops[..|ops| - 1]))
    && (Run(trials, c, env, ops).Running? ==>
          AdaptorKnown(Run(trials, c, env, ops).value.codec, Run(trials, c, env, ops).value.config))
  }

  lemma {:induction false} RunAdaptorIff(trials: Trials, c: Config, env: Surroundings, ops: seq<Op>)
    requires Run(trials, c, env, ops).Running?
    ensures AdaptedThroughout(trials, c, env, ops) <==> AllAdapt(trials, c, env, ops)
    decreases |ops|
  {
    hide Construct, Step, AdaptorKnown, StepAdapts, ConstructionAdapts;
    if ops == [] {
      ConstructAdaptorIff(trials, c, env);
    } else {
      var before := ops[..|ops| - 1];
      var s := Run(trials, c, env, before).value;
      RunAdaptorIff(trials, c, env, before);
      if AdaptorKnown(s.codec, s.config) {
        AdaptorKnownIff(s, ops[|ops| - 1]);
      }
    }
  }
}
