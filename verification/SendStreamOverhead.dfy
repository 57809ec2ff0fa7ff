/** The per-packet overhead of an audio send stream and its two mirrors: what the speech
    encoder was last told, and what the channel's bitrate accountant was told. */
module SendStreamOverhead {
  import opened Basics
  import opened RtpExtensions
  import opened SendStreamModel
  import opened SendStreamEncoder

  // ---------------------------------------------------------------------
  // The speech encoder
  // ---------------------------------------------------------------------

  /** The speech encoder, if one is installed, was last told the current overhead. */
  ghost predicate EncoderKnows(k: Codec, overhead: nat) {
    k.encoder.Some? ==> k.encoder.value.Core().Speech? && k.encoder.value.Core().overhead == overhead
  }

  /** A change of overhead reaches the speech encoder exactly when no comfort-noise encoder is
      around it. */
  lemma TellOverheadIff(k: Codec, before: nat, after: nat)
    requires EncoderKnows(k, before)
    ensures EncoderKnows(TellOverhead(k, before, after), after) <==>
            before == after || k.encoder.None? || !k.encoder.value.HasCng()
    ensures TellOverhead(k, before, after).encoder.Some? <==> k.encoder.Some?
    ensures k.encoder.Some? ==>
              TellOverhead(k, before, after).encoder.value.HasCng() == k.encoder.value.HasCng()
  {
    if k.encoder.Some? {
      OverheadReaches(k.encoder.value, after);
      SameLayersCore(k.encoder.value, k.encoder.value.OnReceivedOverhead(after));
    }
  }

  lemma RetargetKeepsKnowledge(k: Codec, k': Codec, overhead: nat)
    requires Retargeted(k, k')
    ensures EncoderKnows(k', overhead) <==> EncoderKnows(k, overhead)
    ensures Bare(k') <==> Bare(k)
  {
    if k.encoder.Some? {
      RetargetKeepsLayers(k, k');
    }
  }

  /** The encoder installed after an operation has a comfort-noise layer. */
  predicate NoisyAfterStep(s: Stream, op: Op) {
    if op.OpReconfigure? then NoisyAfter(s.codec.encoder, s.config, op.config, op.env)
    else s.codec.encoder.Some? && s.codec.encoder.value.HasCng()
  }

  predicate IsRecreated(s: Stream, op: Op) {
    op.OpReconfigure? && Recreates(s.config, op.config, op.env)
  }

  /** The encoder the operation leaves installed has no comfort-noise layer, or it was just
      created and there is no overhead, or it stays and so does the overhead. */
  predicate StepTells(s: Stream, op: Op) {
    !NoisyAfterStep(s, op) || OverheadAfter(s, op) == if IsRecreated(s, op) then 0 else s.rates.overhead
  }

  /** The overhead mirror, exactly, on what is known before the operation. */
  lemma EncoderKnowsIff(s: Stream, op: Op)
    requires Step(s, op).Running? && EncoderKnows(s.codec, s.rates.overhead)
    ensures EncoderKnows(Step(s, op).value.codec, Step(s, op).value.rates.overhead) <==> StepTells(s, op)
  {
    hide Step, NeedsNewEncoder, CodecUnchanged, SetupSendCodec, TellOverhead, ReconfigureSendCodec, NoisyAfter,
         OverheadAfter, Retargeted;
    StepCodec(s, op);
    OverheadForeseen(s, op);
    var before, after := s.rates.overhead, Step(s, op).value.rates.overhead;
    var k := Recoded(s, op).value;
    RetargetKeepsKnowledge(TellOverhead(k, before, after), Step(s, op).value.codec, after);
    if op.OpReconfigure? {
      CodecAfter(s, op.config, op.env);
      LayersForeseen(s.codec, s.config, op.config, before, s.sending, op.env);
    }
    if IsRecreated(s, op) && k.encoder.value.HasCng() {
      UntoldStaysUntold(k, before, after);
    } else {
      TellOverheadIff(k, before, after);
    }
  }

  lemma UntoldStaysUntold(k: Codec, before: nat, after: nat)
    requires k.encoder.Some? && k.encoder.value.HasCng() && EncoderKnows(k, 0)
    ensures EncoderKnows(TellOverhead(k, before, after), 0)
    ensures TellOverhead(k, before, after).encoder.Some?
    ensures TellOverhead(k, before, after).encoder.value.HasCng()
  {
    OverheadReaches(k.encoder.value, after);
    SameLayersCore(k.encoder.value, k.encoder.value.OnReceivedOverhead(after));
  }

  /** What the speech encoder knows after the codec was reconfigured. */
  lemma CodecAfter(s: Stream, c: Config, env: Surroundings)
    requires EncoderKnows(s.codec, s.rates.overhead)
    requires ReconfigureSendCodec(s.codec, s.config, c, s.rates.overhead, s.sending, env).Running?
    ensures var k := ReconfigureSendCodec(s.codec, s.config, c, s.rates.overhead, s.sending, env).value;
            var recreated := Recreates(s.config, c, env);
            && (recreated ==> k.encoder.Some?)
            && (recreated && k.encoder.value.HasCng() ==> EncoderKnows(k, 0))
            && (!(recreated && k.encoder.value.HasCng()) ==> EncoderKnows(k, s.rates.overhead))
  {
    hide NeedsNewEncoder, CodecUnchanged, SetupSendCodec, SameLayers, Updated, Shaped, SameFormat;
    var overhead := s.rates.overhead;
    CodecChoice(s.codec, s.config, c, overhead, s.sending, env);
    if NeedsNewEncoder(s.config, c) && env.created.Some? {
      SetupIsShaped(s.codec, c, overhead, s.sending, env);
    } else if !CodecUnchanged(s.config, c) && !NeedsNewEncoder(s.config, c) && s.codec.encoder.Some? {
      KeptEncoder(s.codec, s.config, c, overhead, s.sending, env);
    }
  }

  ghost predicate NoComfortNoise(c: Config) {
    c.sendCodecSpec.Some? ==> c.sendCodecSpec.value.cngPayloadType.None?
  }

  ghost predicate ComfortNoiseNeverUsed(c: Config, ops: seq<Op>) {
    NoComfortNoise(c) && forall i :: 0 <= i < |ops| && ops[i].OpReconfigure? ==> NoComfortNoise(ops[i].config)
  }

  ghost predicate Bare(k: Codec) {
    k.encoder.Some? ==> !k.encoder.value.HasCng()
  }

  lemma TellKeepsBare(k: Codec, before: nat, after: nat)
    requires Bare(k)
    ensures Bare(TellOverhead(k, before, after))
  {
    hide TellOverhead;
    TellKeepsLayers(k, before, after);
  }

  lemma ReconfigureKeepsBare(k: Codec, previous: Config, next: Config, overhead: nat, sending: bool, env: Surroundings)
    requires Bare(k) && NoComfortNoise(previous) && NoComfortNoise(next)
    requires ReconfigureSendCodec(k, previous, next, overhead, sending, env).Running?
    ensures Bare(ReconfigureSendCodec(k, previous, next, overhead, sending, env).value)
  {
    hide ReconfigureSendCodec, SameFormat, SameOptionalSpec;
    LayersForeseen(k, previous, next, overhead, sending, env);
  }

  /** In every run that never configures comfort noise, across codec replacement, RED, and
      adaptor and overhead changes, the speech encoder knows the current overhead. */
  lemma {:induction false} RunEncoderKnows(trials: Trials, c: Config, env: Surroundings, ops: seq<Op>)
    requires Run(trials, c, env, ops).Running? && ComfortNoiseNeverUsed(c, ops)
    ensures var s := Run(trials, c, env, ops).value;
            EncoderKnows(s.codec, s.rates.overhead) && Bare(s.codec) && NoComfortNoise(s.config)
    decreases |ops|
  {
    hide ConfigureStream, Step, Construct, EncoderKnows, Bare;
    if ops == [] {
      ConstructKnows(trials, c, env);
    } else {
      var s, op := Run(trials, c, env, ops[..|ops| - 1]).value, ops[|ops| - 1];
      RunEncoderKnows(trials, c, env, ops[..|ops| - 1]);
      StepKnows(s, op);
    }
  }

  lemma StepKnows(s: Stream, op: Op)
    requires Step(s, op).Running? && EncoderKnows(s.codec, s.rates.overhead) && Bare(s.codec)
    requires NoComfortNoise(s.config) && (op.OpReconfigure? ==> NoComfortNoise(op.config))
    ensures var s' := Step(s, op).value;
            EncoderKnows(s'.codec, s'.rates.overhead) && Bare(s'.codec) && NoComfortNoise(s'.config)
  {
    hide Step, ReconfigureSendCodec, TellOverhead, SameFormat, SameOptionalSpec, Retargeted;
    StepCodec(s, op);
    EncoderKnowsIff(s, op);
    var s' := Step(s, op).value;
    var k := Recoded(s, op).value;
    if op.OpReconfigure? {
      ReconfigureKeepsBare(s.codec, s.config, op.config, s.rates.overhead, s.sending, op.env);
    }
    TellKeepsBare(k, s.rates.overhead, s'.rates.overhead);
    RetargetKeepsKnowledge(TellOverhead(k, s.rates.overhead, s'.rates.overhead), s'.codec, s'.rates.overhead);
  }

  /** What construction must meet: no encoder, no comfort noise or no overhead. */
  predicate ConstructionTells(c: Config, env: Surroundings) {
    || c.sendCodecSpec.None? || env.created.None?
    || c.sendCodecSpec.value.cngPayloadType.None? || env.moduleOverhead == 0
  }

  lemma ConstructKnowsIff(trials: Trials, c: Config, env: Surroundings)
    requires Construct(trials, c, env).Running?
    ensures var s := Construct(trials, c, env).value;
            EncoderKnows(s.codec, s.rates.overhead) <==> ConstructionTells(c, env)
  {
    hide Construct, SetupSendCodec, Shaped, TellOverhead;
    ConstructCodec(trials, c, env);
    if c.sendCodecSpec.Some? {
      var k := NewStream(trials).codec;
      SetupFails(k, c, 0, false, env);
      if env.created.Some? {
        SetupIsShaped(k, c, 0, false, env);
      }
      TellOverheadIff(SetupSendCodec(k, c, 0, false, env).value, 0, env.moduleOverhead);
    }
  }

  lemma ConstructKnows(trials: Trials, c: Config, env: Surroundings)
    requires Construct(trials, c, env).Running? && NoComfortNoise(c)
    ensures var s := Construct(trials, c, env).value;
            EncoderKnows(s.codec, s.rates.overhead) && Bare(s.codec) && s.config == c
  {
    hide Construct, SetupSendCodec, Shaped, TellOverhead;
    ConstructKnowsIff(trials, c, env);
    ConstructCodec(trials, c, env);
    if c.sendCodecSpec.Some? {
      var k := NewStream(trials).codec;
      SetupFails(k, c, 0, false, env);
      if env.created.Some? {
        SetupIsShaped(k, c, 0, false, env);
      }
      TellKeepsBare(SetupSendCodec(k, c, 0, false, env).value, 0, env.moduleOverhead);
    }
  }

  /** Construction and each of the operations meet their condition. */
  ghost predicate AllTell(trials: Trials, c: Config, env: Surroundings, ops: seq<Op>) {
    if ops == [] then ConstructionTells(c, env)
    else
      var before := ops[..|ops| - 1];
      && AllTell(trials, c, env, before)
      && (Run(trials, c, env, before).Running? ==> StepTells(Run(trials, c, env, before).value, ops[|ops| - 1]))
  }

  /** The speech encoder knows the overhead after construction and after each operation. */
  ghost predicate KnowsThroughout(trials: Trials, c: Config, env: Surroundings, ops: seq<Op>) {
    && (ops != [] ==> KnowsThroughout(trials, c, env, ops[..|ops| - 1]))
    && (Run(trials, c, env, ops).Running? ==>
          EncoderKnows(Run(trials, c, env, ops).value.codec, Run(trials, c, env, ops).value.rates.overhead))
  }

  /** Over whole runs, comfort noise included. */
  lemma {:induction false} RunEncoderKnowsIff(trials: Trials, c: Config, env: Surroundings, ops: seq<Op>)
    requires Run(trials, c, env, ops).Running?
    ensures KnowsThroughout(trials, c, env, ops) <==> AllTell(trials, c, env, ops)
    decreases |ops|
  {
    hide Construct, Step, EncoderKnows, StepTells;
    if ops == [] {
      ConstructKnowsIff(trials, c, env);
    } else {
      var before := ops[..|ops| - 1];
      var s := Run(trials, c, env, before).value;
      RunEncoderKnowsIff(trials, c, env, before);
      if EncoderKnows(s.codec, s.rates.overhead) {
        EncoderKnowsIff(s, ops[|ops| - 1]);
      }
    }
  }

  /** A stream constructed with comfort noise never tells its speech encoder the overhead. */
  lemma ComfortNoiseHidesOverhead(trials: Trials, c: Config, env: Surroundings)
    requires Construct(trials, c, env).Running? && env.created.Some?
    requires c.sendCodecSpec.Some? && c.sendCodecSpec.value.cngPayloadType.Some?
    ensures var s := Construct(trials, c, env).value;
            && s.rates.overhead == env.moduleOverhead
            && s.codec.encoder.Some? && s.codec.encoder.value.Core().Speech?
            && s.codec.encoder.value.Core().overhead == 0
  {
    hide Construct, SetupSendCodec, Shaped, TellOverhead;
    ConstructCodec(trials, c, env);
    var k := NewStream(trials).codec;
    SetupIsShaped(k, c, 0, false, env);
    UntoldStaysUntold(SetupSendCodec(k, c, 0, false, env).value, 0, env.moduleOverhead);
  }

  const G711 := AudioFormat("PCMU", 8000, 1, map[])

  /** One such stream: G.711 with comfort noise and 12 bytes of overhead. */
  lemma ComfortNoiseExample(trials: Trials)
    ensures var spec := SendCodecSpec(0, G711, false, false, false, Some(13), None, None);
            var c := DEFAULT_CONFIG.(sendCodecSpec := Some(spec));
            var env := Surroundings(Some(Created(8000, 1, 2)), false, 12, None, None, 0, 0);
            && Construct(trials, c, env).Running?
            && !EncoderKnows(Construct(trials, c, env).value.codec, Construct(trials, c, env).value.rates.overhead)
  {
    var spec := SendCodecSpec(0, G711, false, false, false, Some(13), None, None);
    var c := DEFAULT_CONFIG.(sendCodecSpec := Some(spec));
    var env := Surroundings(Some(Created(8000, 1, 2)), false, 12, None, None, 0, 0);
    ExampleRuns(trials, c, env);
    hide Construct;
    ComfortNoiseHidesOverhead(trials, c, env);
  }

  lemma ExampleRuns(trials: Trials, c: Config, env: Surroundings)
    requires c == DEFAULT_CONFIG.(sendCodecSpec := c.sendCodecSpec) && c.sendCodecSpec.Some?
    requires env.created.Some? && env.created.value.channels == 1 && env.created.value.max10MsFrames <= 10
    ensures Construct(trials, c, env).Running?
  {
    hide AllocationFor, Lower;
  }

  // ---------------------------------------------------------------------
  // The channel
  // ---------------------------------------------------------------------

  /** The transport's overhead after the operations. */
  function TransportAfter(ops: seq<Op>): nat {
    if ops == [] then 0
    else
      var op := ops[|ops| - 1];
      if op.OpSetTransportOverhead? then op.bytes else TransportAfter(ops[..|ops| - 1])
  }

  /** The overhead after construction and the operations, from their arguments. */
  function OverheadOf(env: Surroundings, ops: seq<Op>): nat {
    if ops == [] then env.moduleOverhead
    else
      var before := ops[..|ops| - 1];
      match ops[|ops| - 1]
      case OpReconfigure(_, e) => TransportAfter(before) + e.moduleOverhead
      case OpStart(_) => OverheadOf(env, before)
      case OpStop => OverheadOf(env, before)
      case OpSetTransportOverhead(bytes, moduleOverhead, _) => bytes + moduleOverhead
      case OpDeliverRtcp(moduleOverhead, _) => TransportAfter(before) + moduleOverhead
      case OpBitrateUpdated(_) => OverheadOf(env, before)
  }

  lemma {:induction false} RunOverhead(trials: Trials, c: Config, env: Surroundings, ops: seq<Op>)
    requires Run(trials, c, env, ops).Running?
    ensures var r := Run(trials, c, env, ops).value.rates;
            r.overhead == OverheadOf(env, ops) && r.transportOverhead == TransportAfter(ops)
    decreases |ops|
  {
    hide Construct, Step;
    if ops == [] {
      ConstructOverhead(trials, c, env);
    } else {
      var before := ops[..|ops| - 1];
      RunOverhead(trials, c, env, before);
      OverheadForeseen(Run(trials, c, env, before).value, ops[|ops| - 1]);
    }
  }

  /** Some overhead was known after construction or after one of the operations. */
  predicate OverheadSeen(env: Surroundings, ops: seq<Op>) {
    OverheadOf(env, ops) != 0 || (ops != [] && OverheadSeen(env, ops[..|ops| - 1]))
  }

  lemma UpdateTellsChannel(trials: Trials, limits: Limits, r: Rates, moduleOverhead: nat)
    requires UpdateOverhead(trials, limits, r, moduleOverhead).Running?
    ensures var r' := UpdateOverhead(trials, limits, r, moduleOverhead).value;
            if r'.overhead == r.overhead then r'.channelOverhead == r.channelOverhead
            else r'.channelOverhead == r'.overhead
  {
    hide AllocationFor;
  }

  /** How an operation changes the overhead and the channel's copy of it. */
  lemma StepOverhead(s: Stream, op: Op)
    requires Step(s, op).Running?
    ensures var r, r' := s.rates, Step(s, op).value.rates;
            if r'.overhead == r.overhead then r'.channelOverhead == r.channelOverhead
            else r'.channelOverhead == r'.overhead
  {
    hide ConfigureStream, UpdateOverhead, PollCodec, TellRate, AllocationFor, ForwardedRate;
    match op
    case OpReconfigure(c, env) => {
      ReconfigureKeepsOverhead(s, c, env);
      UpdateTellsChannel(s.trials, s.config.limits, s.rates, env.moduleOverhead);
    }
    case OpStart(_) => {}
    case OpStop => {}
    case OpSetTransportOverhead(bytes, moduleOverhead, _) => {
      UpdateTellsChannel(s.trials, s.config.limits, s.rates.(transportOverhead := bytes), moduleOverhead);
    }
    case OpDeliverRtcp(moduleOverhead, _) => {
      UpdateTellsChannel(s.trials, s.config.limits, s.rates, moduleOverhead);
    }
    case OpBitrateUpdated(_) => {}
  }

  /** The channel's accountant has the current overhead if and only if the arguments so far
      have made for some overhead at some time; until then it keeps its default of 72
      bytes. */
  lemma {:induction false} ChannelKnowsIff(trials: Trials, c: Config, env: Surroundings, ops: seq<Op>)
    requires Run(trials, c, env, ops).Running?
    ensures var r := Run(trials, c, env, ops).value.rates;
            && (r.channelOverhead == r.overhead <==> OverheadSeen(env, ops))
            && (!OverheadSeen(env, ops) ==> r.overhead == 0 && r.channelOverhead == 72)
    decreases |ops|
  {
    hide Step, Construct, OverheadOf;
    RunOverhead(trials, c, env, ops);
    if ops == [] {
      ConstructOverhead(trials, c, env);
    } else {
      var before := ops[..|ops| - 1];
      ChannelKnowsIff(trials, c, env, before);
      RunOverhead(trials, c, env, before);
      StepOverhead(Run(trials, c, env, before).value, ops[|ops| - 1]);
    }
  }

  lemma ConstructOverhead(trials: Trials, c: Config, env: Surroundings)
    requires Construct(trials, c, env).Running?
    ensures var r := Construct(trials, c, env).value.rates;
            && r.overhead == env.moduleOverhead && r.transportOverhead == 0
            && r.channelOverhead == if r.overhead == 0 then ACCOUNTANT_DEFAULT_OVERHEAD else r.overhead
  {
    hide ConfigureLinks, ReconfigureSendCodec, PollCodec, AllocationFor;
  }
}
