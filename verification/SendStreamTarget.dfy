/** The target bitrate an audio send stream's speech encoder was last given.  Configurations
    give one, and so does every update of the bitrate allocator, which answers each
    registration at once. */
module SendStreamTarget {
  import opened Basics
  import opened RtpExtensions
  import opened SendStreamModel
  import opened SendStreamEncoder
  import opened SendStreamRates

  // ---------------------------------------------------------------------
  // One operation
  // ---------------------------------------------------------------------

  /** The last rate the allocator's updates make an operation forward, read off before it. */
  function RateTold(s: Stream, op: Op): Option<nat> {
    var overhead := OverheadAfter(s, op);
    match op
    case OpReconfigure(c, env) =>
      if s.sending && AsksForLimits(s.config, c)
      then Some(ForwardedRate(s.trials, c.limits, overhead, RangesAfter(s, op), env.limitsAnswer))
      else if s.rates.registered && overhead != s.rates.overhead
      then Some(ForwardedRate(s.trials, s.config.limits, overhead, s.rates.ranges, env.overheadAnswer))
      else None
    case OpStart(answer) =>
      if !s.sending && StartsAllocated(s) then Some(Forwarded(s, answer)) else None
    case OpStop => None
    case OpSetTransportOverhead(_, _, answer) =>
      if s.rates.registered && overhead != s.rates.overhead
      then Some(ForwardedRate(s.trials, s.config.limits, overhead, s.rates.ranges, answer))
      else None
    case OpDeliverRtcp(_, answer) =>
      if s.rates.registered && overhead != s.rates.overhead
      then Some(ForwardedRate(s.trials, s.config.limits, overhead, s.rates.ranges, answer))
      else None
    case OpBitrateUpdated(target) => Some(Forwarded(s, target))
  }

  /** The target of the installed speech encoder. */
  ghost function Target(k: Codec): Option<int>
    requires k.encoder.Some?
  {
    CoreIsSpeech(k.encoder.value);
    k.encoder.value.Core().targetBitrate
  }

  function ToTarget(rate: Option<nat>): Option<int> {
    if rate.Some? then Some(rate.value) else None
  }

  lemma TellKeepsTarget(k: Codec, before: nat, after: nat)
    ensures TellOverhead(k, before, after).encoder.Some? <==> k.encoder.Some?
    ensures k.encoder.Some? ==> Target(TellOverhead(k, before, after)) == Target(k)
  {
    if k.encoder.Some? {
      OverheadReaches(k.encoder.value, after);
    }
  }

  /** A poll of the overhead gives the encoder the allocator's answer, if it asks for one. */
  lemma PollTarget(k: Codec, trials: Trials, limits: Limits, before: Rates, after: Rates, answer: nat)
    ensures PollCodec(k, trials, limits, before, after, answer).encoder.Some? <==> k.encoder.Some?
    ensures k.encoder.Some? ==>
              Target(PollCodec(k, trials, limits, before, after, answer)) ==
              if AsksForOverhead(before, after)
              then Some(ForwardedRate(trials, limits, after.overhead, after.ranges, answer)) else Target(k)
  {
    hide ForwardedRate, TellOverhead, TellRate;
    var told := TellOverhead(k, before.overhead, after.overhead);
    TellKeepsTarget(k, before.overhead, after.overhead);
    RateReaches(told, ForwardedRate(trials, limits, after.overhead, after.ranges, answer));
  }

  lemma PollStepTarget(s: Stream, moduleOverhead: nat, answer: nat)
    requires PollOverhead(s, moduleOverhead, answer).Running?
    ensures var k := PollOverhead(s, moduleOverhead, answer).value.codec;
            var overhead := s.rates.transportOverhead + moduleOverhead;
            && (k.encoder.Some? <==> s.codec.encoder.Some?)
            && (k.encoder.Some? ==>
                  Target(k) ==
                  if s.rates.registered && overhead != s.rates.overhead
                  then Some(ForwardedRate(s.trials, s.config.limits, overhead, s.rates.ranges, answer))
                  else Target(s.codec))
  {
    hide UpdateOverhead, PollCodec, ForwardedRate, Target;
    var rates := UpdateOverhead(s.trials, s.config.limits, s.rates, moduleOverhead).value;
    UpdateSetsOverhead(s.trials, s.config.limits, s.rates, moduleOverhead);
    UpdateKeepsRanges(s.trials, s.config.limits, s.rates, moduleOverhead);
    PollTarget(s.codec, s.trials, s.config.limits, s.rates, rates, answer);
  }

  lemma ReconfigureStepTarget(s: Stream, c: Config, env: Surroundings)
    requires ConfigureStream(s, c, false, env).Running?
    ensures var op := OpReconfigure(c, env);
            var k, recoded := ConfigureStream(s, c, false, env).value.codec, Recoded(s, op);
            && recoded.Running? && (k.encoder.Some? <==> recoded.value.encoder.Some?)
            && (k.encoder.Some? ==>
                  Target(k) == if RateTold(s, op).Some? then ToTarget(RateTold(s, op)) else Target(recoded.value))
  {
    hide ConfigureLinks, ReconfigureSendCodec, UpdateOverhead, ReconfigureBitrateObserver, PollCodec, TellRate,
         ReadRanges, RangesAfter, AsksForLimits, ForwardedRate, Target;
    var op := OpReconfigure(c, env);
    var recoded := Recoded(s, op).value;
    var rates := UpdateOverhead(s.trials, s.config.limits, s.rates, env.moduleOverhead).value;
    var told := PollCodec(recoded, s.trials, s.config.limits, s.rates, rates, env.overheadAnswer);
    var ranged := rates.(ranges := ReadRanges(told, env, rates.ranges));
    UpdateSetsOverhead(s.trials, s.config.limits, s.rates, env.moduleOverhead);
    UpdateKeepsRanges(s.trials, s.config.limits, s.rates, env.moduleOverhead);
    PollTarget(recoded, s.trials, s.config.limits, s.rates, rates, env.overheadAnswer);
    if s.sending && AsksForLimits(s.config, c) {
      var observed := ReconfigureBitrateObserver(s.trials, ranged, s.config, c).value;
      ObserverKeepsOverhead(s.trials, ranged, s.config, c);
      RangesForeseen(s, c, env);
      RateIsTarget(told, ForwardedRate(s.trials, c.limits, observed.overhead, observed.ranges, env.limitsAnswer));
    }
  }

  lemma RateIsTarget(k: Codec, bps: nat)
    ensures TellRate(k, bps).encoder.Some? <==> k.encoder.Some?
    ensures k.encoder.Some? ==> Target(TellRate(k, bps)) == Some(bps)
  {
    RateReaches(k, bps);
  }

  /** After an operation the target is the last rate an update brought, if there was one, and
      else what reconfiguring the codec left. */
  lemma StepTarget(s: Stream, op: Op)
    requires Step(s, op).Running?
    ensures var k, recoded := Step(s, op).value.codec, Recoded(s, op);
            && recoded.Running? && (k.encoder.Some? <==> recoded.value.encoder.Some?)
            && (k.encoder.Some? ==>
                  Target(k) == if RateTold(s, op).Some? then ToTarget(RateTold(s, op)) else Target(recoded.value))
  {
    hide ConfigureStream, PollOverhead, ForwardedRate, AllocationFor, StartsAllocated, TellRate, ReconfigureSendCodec,
         RangesAfter;
    match op
    case OpReconfigure(c, env) => {
      ReconfigureStepTarget(s, c, env);
    }
    case OpStart(answer) => {
      RateIsTarget(s.codec, Forwarded(s, answer));
    }
    case OpStop => {}
    case OpSetTransportOverhead(bytes, moduleOverhead, answer) => {
      PollStepTarget(s.(rates := s.rates.(transportOverhead := bytes)), moduleOverhead, answer);
    }
    case OpDeliverRtcp(moduleOverhead, answer) => {
      PollStepTarget(s, moduleOverhead, answer);
    }
    case OpBitrateUpdated(target) => {
      RateIsTarget(s.codec, Forwarded(s, target));
    }
  }

  /** A kept encoder is given a new configured target. */
  predicate Regiven(previous: Config, next: Config) {
    && !CodecUnchanged(previous, next) && !NeedsNewEncoder(previous, next)
    && next.sendCodecSpec.value.targetBitrateBps.Some?
    && next.sendCodecSpec.value.targetBitrateBps != previous.sendCodecSpec.value.targetBitrateBps
  }

  lemma RecodedTarget(k: Codec, previous: Config, next: Config, overhead: nat, sending: bool, env: Surroundings)
    requires ReconfigureSendCodec(k, previous, next, overhead, sending, env).Running?
    ensures var r := ReconfigureSendCodec(k, previous, next, overhead, sending, env).value;
            && (r.encoder.Some? <==> k.encoder.Some? || Recreates(previous, next, env))
            && (r.encoder.Some? ==>
                  Target(r) ==
                  if Recreates(previous, next, env) || Regiven(previous, next)
                  then next.sendCodecSpec.value.targetBitrateBps else Target(k))
  {
    hide SameFormat, SameOptionalSpec, SetupSendCodec, SameLayers, Updated, Shaped;
    CodecChoice(k, previous, next, overhead, sending, env);
    if Recreates(previous, next, env) {
      SetupIsShaped(k, next, overhead, sending, env);
    } else if !CodecUnchanged(previous, next) && !NeedsNewEncoder(previous, next) && k.encoder.Some? {
      KeptEncoder(k, previous, next, overhead, sending, env);
    }
  }

  // ---------------------------------------------------------------------
  // Runs
  // ---------------------------------------------------------------------

  predicate GivesTarget(s: Stream, op: Op) {
    op.OpReconfigure? && (Recreates(s.config, op.config, op.env) || Regiven(s.config, op.config))
  }

  /** The last target of a run, in the order in which configurations and updates give them. */
  function LastGiven(trials: Trials, c: Config, env: Surroundings, ops: seq<Op>): Option<int> {
    if ops == [] then
      if c.sendCodecSpec.Some? then c.sendCodecSpec.value.targetBitrateBps else None
    else
      var before, op := ops[..|ops| - 1], ops[|ops| - 1];
      var r := Run(trials, c, env, before);
      if r.Crashed? then None
      else if RateTold(r.value, op).Some? then ToTarget(RateTold(r.value, op))
      else if GivesTarget(r.value, op) then op.config.sendCodecSpec.value.targetBitrateBps
      else LastGiven(trials, c, env, before)
  }

  /** In every run the installed speech encoder's target is the last one given, by a
      configuration or by an update. */
  lemma {:induction false} RunTarget(trials: Trials, c: Config, env: Surroundings, ops: seq<Op>)
    requires Run(trials, c, env, ops).Running?
    ensures var k := Run(trials, c, env, ops).value.codec;
            k.encoder.Some? ==> Target(k) == LastGiven(trials, c, env, ops)
    decreases |ops|
  {
    hide Construct, Step, RateTold, Target, Recreates, Regiven, ReconfigureSendCodec;
    if ops == [] {
      ConstructTarget(trials, c, env);
    } else {
      var s, op := Run(trials, c, env, ops[..|ops| - 1]).value, ops[|ops| - 1];
      RunTarget(trials, c, env, ops[..|ops| - 1]);
      StepTarget(s, op);
      if op.OpReconfigure? {
        RecodedTarget(s.codec, s.config, op.config, s.rates.overhead, s.sending, op.env);
      }
    }
  }

  lemma ConstructTarget(trials: Trials, c: Config, env: Surroundings)
    requires Construct(trials, c, env).Running?
    ensures var k := Construct(trials, c, env).value.codec;
            && (k.encoder.Some? <==> c.sendCodecSpec.Some? && env.created.Some?)
            && (k.encoder.Some? ==> Target(k) == c.sendCodecSpec.value.targetBitrateBps)
  {
    hide Construct, SetupSendCodec, Shaped, TellOverhead;
    ConstructCodec(trials, c, env);
    if c.sendCodecSpec.Some? {
      var k := NewStream(trials).codec;
      SetupFails(k, c, 0, false, env);
      if env.created.Some? {
        SetupIsShaped(k, c, 0, false, env);
      }
      TellKeepsTarget(SetupSendCodec(k, c, 0, false, env).value, 0, env.moduleOverhead);
    }
  }

  /** A target bitrate in the configuration is the last one the speech encoder was given. */
  ghost predicate TargetKnown(k: Codec, c: Config) {
    c.sendCodecSpec.Some? && c.sendCodecSpec.value.targetBitrateBps.Some? ==>
      k.encoder.Some? && Target(k) == c.sendCodecSpec.value.targetBitrateBps
  }

  function ConfiguredTarget(c: Config): Option<int> {
    if c.sendCodecSpec.Some? then c.sendCodecSpec.value.targetBitrateBps else None
  }

  /** The last rate an update brought since a configuration gave its target. */
  function UpdateSince(trials: Trials, c: Config, env: Surroundings, ops: seq<Op>): Option<nat> {
    if ops == [] then None
    else
      var before, op := ops[..|ops| - 1], ops[|ops| - 1];
      var r := Run(trials, c, env, before);
      if r.Crashed? then None
      else if RateTold(r.value, op).Some? then RateTold(r.value, op)
      else if GivesTarget(r.value, op) then None
      else UpdateSince(trials, c, env, before)
  }

  /** While the configuration has a target, the last one given is that, unless an update came
      after it. */
  lemma {:induction false} GivenOrUpdated(trials: Trials, c: Config, env: Surroundings, ops: seq<Op>)
    requires Run(trials, c, env, ops).Running? && env.created.Some? && FactoryDelivers(ops)
    ensures var s := Run(trials, c, env, ops).value;
            ConfiguredTarget(s.config).Some? ==>
              LastGiven(trials, c, env, ops) ==
              if UpdateSince(trials, c, env, ops).Some? then ToTarget(UpdateSince(trials, c, env, ops))
              else ConfiguredTarget(s.config)
    decreases |ops|
  {
    hide Construct, Step, RateTold, NeedsNewEncoder, CodecUnchanged;
    if ops == [] {
      ConstructCodec(trials, c, env);
    } else {
      var s, op := Run(trials, c, env, ops[..|ops| - 1]).value, ops[|ops| - 1];
      GivenOrUpdated(trials, c, env, ops[..|ops| - 1]);
      StepCodec(s, op);
      if op.OpReconfigure? {
        KeptTarget(s.config, op.config);
      }
    }
  }

  /** A configuration that gives no target has none or keeps the old one. */
  lemma KeptTarget(previous: Config, next: Config)
    ensures NeedsNewEncoder(previous, next) || Regiven(previous, next)
            || ConfiguredTarget(next).None? || ConfiguredTarget(next) == ConfiguredTarget(previous)
  {
    hide SameFormat;
  }

  lemma {:induction false} Installed(trials: Trials, c: Config, env: Surroundings, ops: seq<Op>)
    requires Run(trials, c, env, ops).Running? && env.created.Some? && FactoryDelivers(ops)
    ensures var s := Run(trials, c, env, ops).value; s.config.sendCodecSpec.Some? ==> s.codec.encoder.Some?
    decreases |ops|
  {
    hide Construct, Step, NeedsNewEncoder, CodecUnchanged, ReconfigureSendCodec, RateTold, Target;
    if ops == [] {
      ConstructTarget(trials, c, env);
      ConstructCodec(trials, c, env);
    } else {
      var s, op := Run(trials, c, env, ops[..|ops| - 1]).value, ops[|ops| - 1];
      Installed(trials, c, env, ops[..|ops| - 1]);
      StepCodec(s, op);
      StepTarget(s, op);
      if op.OpReconfigure? {
        RecodedTarget(s.codec, s.config, op.config, s.rates.overhead, s.sending, op.env);
        NoCodecBefore(s.config, op.config);
      }
    }
  }

  lemma NoCodecBefore(previous: Config, next: Config)
    ensures previous.sendCodecSpec.None? && next.sendCodecSpec.Some? ==> NeedsNewEncoder(previous, next)
  {
  }

  /** In every run whose factory delivers, the configured target is the last one given if and
      only if no update came after the configuration that gave it, or the last such update
      forwarded that very rate. */
  lemma RunTargetKnownIff(trials: Trials, c: Config, env: Surroundings, ops: seq<Op>)
    requires Run(trials, c, env, ops).Running? && env.created.Some? && FactoryDelivers(ops)
    ensures var s, update := Run(trials, c, env, ops).value, UpdateSince(trials, c, env, ops);
            TargetKnown(s.codec, s.config) <==>
            || ConfiguredTarget(s.config).None? || update.None?
            || ToTarget(update) == ConfiguredTarget(s.config)
  {
    hide Run, Target, LastGiven, UpdateSince;
    RunTarget(trials, c, env, ops);
    GivenOrUpdated(trials, c, env, ops);
    Installed(trials, c, env, ops);
  }
}
