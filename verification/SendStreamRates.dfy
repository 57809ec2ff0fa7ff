/** The bitrate bounds of an audio send stream, its registration with the bitrate allocator
    and its life cycle. */
module SendStreamRates {
  import opened Basics
  import opened RtpExtensions
  import opened SendStreamModel
  import opened SendStreamSettings
  import opened SendStreamEncoder

  // ---------------------------------------------------------------------
  // Bounds
  // ---------------------------------------------------------------------

  lemma MulMonotone(a: nat, p: int, q: int)
    ensures p <= q ==> a * p <= a * q
  {
  }

  lemma QuotientAtLeast(x: nat, a: Micros, q: nat)
    requires a * q <= x
    ensures q <= x / a
  {
    var q', r := x / a, x % a;
    assert x == a * q' + r;
    MulMonotone(a, q' + 1, q);
  }

  /** The same overhead costs no less on shorter frames. */
  lemma RateFalls(bytes: nat, short: Micros, long: Micros)
    requires short <= long
    ensures Rate(bytes, long) <= Rate(bytes, short)
  {
    var x := bytes * 8_000_000;
    var q := x / long;
    assert long * q <= x;
    MulMonotone(q, short, long);
    QuotientAtLeast(x, short, q);
  }

  /** q bits per second, rounded down, for so many bytes in every so many microseconds. */
  predicate RateOf(q: int, bytes: int, us: int) {
    q * us <= bytes * 8_000_000 < (q + 1) * us
  }

  lemma RateIs(bytes: nat, us: Micros)
    ensures RateOf(Rate(bytes, us), bytes, us)
  {
    var x := bytes * 8_000_000;
    var q := x / us;
    assert x == us * q + x % us;
    assert (q + 1) * us == q * us + us;
  }

  /** The payload bounds: the encoder's, else the field trial's, else the configuration's. */
  function Low(trials: Trials, limits: Limits, ranges: Ranges): int {
    match (ranges.bitrates, trials.minBitrate)
    case (Some(b), _) => b.min
    case (None, Some(rate)) => rate
    case (None, None) => limits.minBitrateBps
  }

  function High(trials: Trials, limits: Limits, ranges: Ranges): int {
    match (ranges.bitrates, trials.maxBitrate)
    case (Some(b), _) => b.max
    case (None, Some(rate)) => rate
    case (None, None) => limits.maxBitrateBps
  }

  /** There are constraints: limits are set, the payload bounds are in order, and the frame
      lengths are known if they are needed. */
  predicate Allocatable(trials: Trials, limits: Limits, ranges: Ranges) {
    && limits.minBitrateBps >= 0 && limits.maxBitrateBps >= 0
    && Low(trials, limits, ranges) <= High(trials, limits, ranges)
    && (trials.legacyOverheadCalculation || ranges.frameLengths.Some?)
  }

  /** The bounds with overhead: in the legacy calculation 50 bytes per 60 ms on both, else the
      overhead per longest frame on the minimum and per shortest frame on the maximum. */
  ghost predicate BoundsAre(trials: Trials, limits: Limits, overhead: nat, ranges: Ranges, min: int, max: int) {
    var low, high := Low(trials, limits, ranges), High(trials, limits, ranges);
    if trials.legacyOverheadCalculation
    then RateOf(min - low, 50, 60_000) && RateOf(max - high, 50, 60_000)
    else
      && ranges.frameLengths.Some?
      && RateOf(min - low, overhead, ranges.frameLengths.value.longest)
      && RateOf(max - high, overhead, ranges.frameLengths.value.shortest)
  }

  lemma ConstraintsAre(trials: Trials, limits: Limits, overhead: nat, ranges: Ranges)
    ensures var c := Constraints(trials, limits, overhead, ranges);
            && (c.Some? <==> Allocatable(trials, limits, ranges))
            && (c.Some? ==> BoundsAre(trials, limits, overhead, ranges, c.value.min, c.value.max))
  {
    hide Rate, RateOf;
    RateIs(50, 60_000);
    if ranges.frameLengths.Some? {
      RateIs(overhead, ranges.frameLengths.value.longest);
      RateIs(overhead, ranges.frameLengths.value.shortest);
    }
  }

  /** The priority bitrate: none, the raw one, or the configured one plus overhead. */
  ghost predicate PriorityIs(trials: Trials, overhead: nat, ranges: Ranges, rate: int) {
    if !trials.enablePriorityBitrate then rate == 0
    else if trials.priorityBitrateRaw.Some? then rate == trials.priorityBitrateRaw.value
    else if trials.legacyOverheadCalculation then RateOf(rate - trials.priorityBitrate, 50, 20_000)
    else
      && ranges.frameLengths.Some?
      && RateOf(rate - trials.priorityBitrate, overhead, ranges.frameLengths.value.longest)
  }

  /** What each field of the stream's entry in the allocator is. */
  ghost predicate EntryIs(trials: Trials, limits: Limits, overhead: nat, ranges: Ranges, a: Allocation) {
    && BoundsAre(trials, limits, overhead, ranges, a.min, a.max)
    && PriorityIs(trials, overhead, ranges, a.priorityBitrate)
    && (trials.bitratePriority.Some? ==> a.bitratePriority == trials.bitratePriority.value)
    && (trials.bitratePriority.None? ==> a.bitratePriority == limits.bitratePriority)
  }

  lemma EntryFields(trials: Trials, limits: Limits, overhead: nat, ranges: Ranges)
    ensures var a := AllocationFor(trials, limits, overhead, ranges);
            && (a.Some? <==> Allocatable(trials, limits, ranges))
            && (a.Some? ==> EntryIs(trials, limits, overhead, ranges, a.value))
  {
    hide Rate, RateOf, BoundsAre, Constraints;
    ConstraintsAre(trials, limits, overhead, ranges);
    RateIs(50, 20_000);
    if ranges.frameLengths.Some? {
      RateIs(overhead, ranges.frameLengths.value.longest);
    }
  }

  ghost predicate Ordered(ranges: Ranges) {
    ranges.frameLengths.Some? ==> ranges.frameLengths.value.shortest <= ranges.frameLengths.value.longest
  }

  /** Adding overhead keeps the bounds in order: the minimum is charged for the longest frames
      and the maximum for the shortest. */
  lemma ConstraintsOrdered(trials: Trials, limits: Limits, overhead: nat, ranges: Ranges)
    requires Ordered(ranges) && Constraints(trials, limits, overhead, ranges).Some?
    ensures var b := Constraints(trials, limits, overhead, ranges).value; b.min <= b.max
  {
    if !trials.legacyOverheadCalculation {
      RateFalls(overhead, ranges.frameLengths.value.shortest, ranges.frameLengths.value.longest);
    }
  }

  /** Every rate the stream forwards lies within the constraints, and a rate that already does
      is forwarded unchanged. */
  lemma ForwardedWithinConstraints(s: Stream, rate: nat)
    requires Ordered(s.rates.ranges)
    ensures var c := Constraints(s.trials, s.config.limits, s.rates.overhead, s.rates.ranges);
            && (c.Some? ==> c.value.min <= Forwarded(s, rate) <= c.value.max)
            && (c.None? || c.value.min <= rate <= c.value.max ==> Forwarded(s, rate) == rate)
  {
    hide Constraints;
    if Constraints(s.trials, s.config.limits, s.rates.overhead, s.rates.ranges).Some? {
      ConstraintsOrdered(s.trials, s.config.limits, s.rates.overhead, s.rates.ranges);
    }
  }

  /** Clamping never reorders two rates, so the stable target stays below the target. */
  lemma ForwardedMonotone(s: Stream, low: nat, high: nat)
    requires low <= high && Ordered(s.rates.ranges)
    ensures Forwarded(s, low) <= Forwarded(s, high)
  {
    hide Constraints;
    if Constraints(s.trials, s.config.limits, s.rates.overhead, s.rates.ranges).Some? {
      ConstraintsOrdered(s.trials, s.config.limits, s.rates.overhead, s.rates.ranges);
    }
  }

  // ---------------------------------------------------------------------
  // Life cycle
  // ---------------------------------------------------------------------

  ghost predicate RatesAlive(r: Rates, sending: bool) {
    && r.registered == r.allocation.Some?
    && (r.registered ==> sending)
    && (sending ==> r.partOfAllocation == r.registered)
  }

  ghost predicate CodecAlive(k: Codec, sending: bool) {
    k.audioState == if sending then Some(k.stored) else None
  }

  /** The flag equals the allocator's entry and implies sending; while sending, the module's
      part-of-allocation flag equals it; AudioState's map has the stream exactly while it
      is sending, with the stored properties; the channel sends exactly then. */
  ghost predicate Alive(s: Stream) {
    RatesAlive(s.rates, s.sending) && CodecAlive(s.codec, s.sending) && s.channelSending == s.sending
  }

  lemma CodecStaysAlive(k: Codec, previous: Config, next: Config, overhead: nat, sending: bool, env: Surroundings)
    requires CodecAlive(k, sending) && ReconfigureSendCodec(k, previous, next, overhead, sending, env).Running?
    ensures CodecAlive(ReconfigureSendCodec(k, previous, next, overhead, sending, env).value, sending)
  {
    hide SameFormat, SameOptionalSpec, ReconfigureAna, ReconfigureCng, CreateComfortNoise;
  }

  lemma OverheadKeepsAlive(trials: Trials, limits: Limits, r: Rates, moduleOverhead: nat, sending: bool)
    requires RatesAlive(r, sending) && UpdateOverhead(trials, limits, r, moduleOverhead).Running?
    ensures var r' := UpdateOverhead(trials, limits, r, moduleOverhead).value;
            RatesAlive(r', sending) && r'.registered == r.registered && r'.ranges == r.ranges
  {
    hide AllocationFor;
  }

  lemma ObserverKeepsAlive(trials: Trials, r: Rates, previous: Config, next: Config)
    requires RatesAlive(r, true) && ReconfigureBitrateObserver(trials, r, previous, next).Running?
    ensures RatesAlive(ReconfigureBitrateObserver(trials, r, previous, next).value, true)
  {
    hide AllocationFor, TransportSeqNumId;
  }

  lemma ConfigureKeepsAlive(s: Stream, c: Config, first: bool, env: Surroundings)
    requires Alive(s) && ConfigureStream(s, c, first, env).Running?
    ensures Alive(ConfigureStream(s, c, first, env).value)
  {
    hide ConfigureLinks, ReconfigureSendCodec, UpdateOverhead, ReconfigureBitrateObserver, RatesAlive, ReadRanges,
         PollCodec, TellRate, ForwardedRate, AsksForLimits;
    CodecStaysAlive(s.codec, s.config, c, s.rates.overhead, s.sending, env);
    OverheadKeepsAlive(s.trials, s.config.limits, s.rates, env.moduleOverhead, s.sending);
    var r := UpdateOverhead(s.trials, s.config.limits, s.rates, env.moduleOverhead).value;
    var k := ReconfigureSendCodec(s.codec, s.config, c, s.rates.overhead, s.sending, env).value;
    var told := PollCodec(k, s.trials, s.config.limits, s.rates, r, env.overheadAnswer);
    PollKeepsAlive(k, s.trials, s.config.limits, s.rates, r, env.overheadAnswer, s.sending);
    var ranged := r.(ranges := ReadRanges(told, env, r.ranges));
    RangesDoNotMatter(r, ranged.ranges, s.sending);
    if s.sending {
      ObserverKeepsAlive(s.trials, ranged, s.config, c);
      var observed := ReconfigureBitrateObserver(s.trials, ranged, s.config, c).value;
      var bps := ForwardedRate(s.trials, c.limits, observed.overhead, observed.ranges, env.limitsAnswer);
      RateKeepsAlive(told, bps, true);
    }
  }

  lemma RateKeepsAlive(k: Codec, bps: nat, sending: bool)
    ensures CodecAlive(TellRate(k, bps), sending) <==> CodecAlive(k, sending)
  {
  }

  lemma PollKeepsAlive(k: Codec, trials: Trials, limits: Limits, before: Rates, after: Rates, answer: nat,
                       sending: bool)
    ensures CodecAlive(PollCodec(k, trials, limits, before, after, answer), sending) <==> CodecAlive(k, sending)
  {
    hide ForwardedRate;
  }

  lemma RangesDoNotMatter(r: Rates, ranges: Ranges, sending: bool)
    ensures RatesAlive(r.(ranges := ranges), sending) <==> RatesAlive(r, sending)
  {
  }

  lemma StepKeepsAlive(s: Stream, op: Op)
    requires Alive(s) && Step(s, op).Running?
    ensures Alive(Step(s, op).value)
  {
    hide ConfigureStream, UpdateOverhead, AllocationFor, StartsAllocated, PollCodec, ForwardedRate;
    match op
    case OpReconfigure(c, env) => {
      ConfigureKeepsAlive(s, c, false, env);
    }
    case OpStart(_) => {}
    case OpStop => {}
    case OpSetTransportOverhead(bytes, moduleOverhead, answer) => {
      PollStepKeepsAlive(s.(rates := s.rates.(transportOverhead := bytes)), moduleOverhead, answer);
    }
    case OpDeliverRtcp(moduleOverhead, answer) => {
      PollStepKeepsAlive(s, moduleOverhead, answer);
    }
    case OpBitrateUpdated(_) => {}
  }

  lemma PollStepKeepsAlive(s: Stream, moduleOverhead: nat, answer: nat)
    requires Alive(s) && PollOverhead(s, moduleOverhead, answer).Running?
    ensures Alive(PollOverhead(s, moduleOverhead, answer).value)
  {
    hide UpdateOverhead, PollCodec, RatesAlive, CodecAlive;
    OverheadKeepsAlive(s.trials, s.config.limits, s.rates, moduleOverhead, s.sending);
    var rates := UpdateOverhead(s.trials, s.config.limits, s.rates, moduleOverhead).value;
    PollKeepsAlive(s.codec, s.trials, s.config.limits, s.rates, rates, answer, s.sending);
  }

  /** Over every run. */
  lemma {:induction false} RunAlive(trials: Trials, c: Config, env: Surroundings, ops: seq<Op>)
    requires Run(trials, c, env, ops).Running?
    ensures Alive(Run(trials, c, env, ops).value)
    decreases |ops|
  {
    hide ConfigureStream, Step;
    if ops == [] {
      ConfigureKeepsAlive(NewStream(trials), c, true, env);
    } else {
      RunAlive(trials, c, env, ops[..|ops| - 1]);
      StepKeepsAlive(Run(trials, c, env, ops[..|ops| - 1]).value, ops[|ops| - 1]);
    }
  }

  // ---------------------------------------------------------------------
  // When the stream is registered
  // ---------------------------------------------------------------------

  /** The transport sequence number extension is in use. */
  ghost predicate UsesFeedback(c: Config) {
    exists t :: t != 0 && HasId(c.extensions, TRANSPORT_SEQUENCE_NUMBER_URI, t)
  }

  ghost predicate SameFeedback(a: Config, b: Config) {
    exists t :: HasId(a.extensions, TRANSPORT_SEQUENCE_NUMBER_URI, t)
                && HasId(b.extensions, TRANSPORT_SEQUENCE_NUMBER_URI, t)
  }

  /** Two configurations between which the registration is left alone. */
  ghost predicate SameObserved(a: Config, b: Config) {
    && a.limits.minBitrateBps == b.limits.minBitrateBps && a.limits.maxBitrateBps == b.limits.maxBitrateBps
    && a.limits.bitratePriority == b.limits.bitratePriority
    && SameFeedback(a, b) && a.audioNetworkAdaptor == b.audioNetworkAdaptor
  }

  predicate IsLimited(c: Config) {
    !c.hasDscp && c.limits.minBitrateBps != -1 && c.limits.maxBitrateBps != -1
  }

  lemma FeedbackIs(c: Config)
    ensures forall t :: HasId(c.extensions, TRANSPORT_SEQUENCE_NUMBER_URI, t) <==> t == TransportSeqNumId(c)
  {
    hide HasId, LastId;
    LastIdByPosition(c.extensions, TRANSPORT_SEQUENCE_NUMBER_URI);
    forall t | HasId(c.extensions, TRANSPORT_SEQUENCE_NUMBER_URI, t)
      ensures t == TransportSeqNumId(c)
    {
      IdIsUnique(c.extensions, TRANSPORT_SEQUENCE_NUMBER_URI, t);
    }
  }

  lemma ObservedIff(previous: Config, next: Config)
    ensures ObserverUnchanged(previous, next) <==> SameObserved(previous, next)
    ensures AsksForLimits(previous, next) <==>
            !SameObserved(previous, next) && IsLimited(next) && UsesFeedback(next)
  {
    hide HasId, TransportSeqNumId;
    FeedbackIs(previous);
    FeedbackIs(next);
    assert HasId(next.extensions, TRANSPORT_SEQUENCE_NUMBER_URI, TransportSeqNumId(next));
    assert HasId(previous.extensions, TRANSPORT_SEQUENCE_NUMBER_URI, TransportSeqNumId(previous));
  }

  lemma StartsIff(s: Stream)
    ensures StartsAllocated(s) <==>
            IsLimited(s.config) && (s.trials.allocateAudioWithoutFeedback || UsesFeedback(s.config))
  {
    hide HasId, TransportSeqNumId;
    FeedbackIs(s.config);
    assert HasId(s.config.extensions, TRANSPORT_SEQUENCE_NUMBER_URI, TransportSeqNumId(s.config));
  }

  /** Whether the stream is registered with the allocator after an operation. */
  ghost predicate RegisteredAfter(s: Stream, op: Op) {
    match op
    case OpReconfigure(c, _) =>
      s.sending && if SameObserved(s.config, c) then s.rates.registered else IsLimited(c) && UsesFeedback(c)
    case OpStart(_) =>
      if s.sending then s.rates.registered
      else IsLimited(s.config) && (s.trials.allocateAudioWithoutFeedback || UsesFeedback(s.config))
    case OpStop => false
    case OpSetTransportOverhead(_, _, _) => s.rates.registered
    case OpDeliverRtcp(_, _) => s.rates.registered
    case OpBitrateUpdated(_) => s.rates.registered
  }

  lemma ReconfigureRegisters(s: Stream, c: Config, env: Surroundings)
    requires Alive(s) && ConfigureStream(s, c, false, env).Running?
    ensures ConfigureStream(s, c, false, env).value.rates.registered <==>
            s.sending && if ObserverUnchanged(s.config, c) then s.rates.registered
                         else HasLimits(c) && TransportSeqNumId(c) != 0
  {
    hide ConfigureLinks, ReconfigureSendCodec, UpdateOverhead, AllocationFor, PollCodec, TellRate, ReadRanges,
         TransportSeqNumId, ObserverUnchanged, ForwardedRate;
    OverheadKeepsAlive(s.trials, s.config.limits, s.rates, env.moduleOverhead, s.sending);
  }

  lemma RegisteredIff(s: Stream, op: Op)
    requires Alive(s) && Step(s, op).Running?
    ensures Step(s, op).value.rates.registered <==> RegisteredAfter(s, op)
  {
    hide ConfigureStream, UpdateOverhead, AllocationFor, PollCodec, TellRate, ForwardedRate, StartsAllocated,
         ObserverUnchanged, UsesFeedback, SameObserved, TransportSeqNumId;
    match op
    case OpReconfigure(c, env) => {
      ReconfigureRegisters(s, c, env);
      ObservedIff(s.config, c);
      UsesIff(c);
    }
    case OpStart(_) => {
      StartsIff(s);
    }
    case OpStop => {}
    case OpSetTransportOverhead(bytes, moduleOverhead, _) => {
      OverheadKeepsAlive(s.trials, s.config.limits, s.rates.(transportOverhead := bytes), moduleOverhead, s.sending);
    }
    case OpDeliverRtcp(moduleOverhead, _) => {
      OverheadKeepsAlive(s.trials, s.config.limits, s.rates, moduleOverhead, s.sending);
    }
    case OpBitrateUpdated(_) => {}
  }

  /** The RTP module's part-of-allocation flag after an operation; stopping leaves it. */
  ghost predicate PartAfter(s: Stream, op: Op) {
    match op
    case OpReconfigure(c, _) =>
      if s.sending && !SameObserved(s.config, c) then IsLimited(c) && UsesFeedback(c) else s.rates.partOfAllocation
    case OpStart(_) =>
      if s.sending then s.rates.partOfAllocation
      else IsLimited(s.config) && (s.trials.allocateAudioWithoutFeedback || UsesFeedback(s.config))
    case OpStop => s.rates.partOfAllocation
    case OpSetTransportOverhead(_, _, _) => s.rates.partOfAllocation
    case OpDeliverRtcp(_, _) => s.rates.partOfAllocation
    case OpBitrateUpdated(_) => s.rates.partOfAllocation
  }

  lemma OverheadKeepsPart(trials: Trials, limits: Limits, r: Rates, moduleOverhead: nat)
    requires UpdateOverhead(trials, limits, r, moduleOverhead).Running?
    ensures UpdateOverhead(trials, limits, r, moduleOverhead).value.partOfAllocation == r.partOfAllocation
  {
    hide AllocationFor;
  }

  lemma ReconfigureParts(s: Stream, c: Config, env: Surroundings)
    requires ConfigureStream(s, c, false, env).Running?
    ensures ConfigureStream(s, c, false, env).value.rates.partOfAllocation <==>
            if s.sending && !ObserverUnchanged(s.config, c) then HasLimits(c) && TransportSeqNumId(c) != 0
            else s.rates.partOfAllocation
  {
    hide ConfigureLinks, ReconfigureSendCodec, UpdateOverhead, AllocationFor, PollCodec, TellRate, ReadRanges,
         TransportSeqNumId, ObserverUnchanged, ForwardedRate;
    OverheadKeepsPart(s.trials, s.config.limits, s.rates, env.moduleOverhead);
  }

  lemma PartOfAllocationIff(s: Stream, op: Op)
    requires Step(s, op).Running?
    ensures Step(s, op).value.rates.partOfAllocation <==> PartAfter(s, op)
  {
    hide ConfigureStream, UpdateOverhead, AllocationFor, PollCodec, TellRate, ForwardedRate, StartsAllocated,
         ObserverUnchanged, UsesFeedback, SameObserved, TransportSeqNumId;
    match op
    case OpReconfigure(c, env) => {
      ReconfigureParts(s, c, env);
      ObservedIff(s.config, c);
      UsesIff(c);
    }
    case OpStart(_) => {
      StartsIff(s);
    }
    case OpStop => {}
    case OpSetTransportOverhead(bytes, moduleOverhead, _) => {
      OverheadKeepsPart(s.trials, s.config.limits, s.rates.(transportOverhead := bytes), moduleOverhead);
    }
    case OpDeliverRtcp(moduleOverhead, _) => {
      OverheadKeepsPart(s.trials, s.config.limits, s.rates, moduleOverhead);
    }
    case OpBitrateUpdated(_) => {}
  }

  lemma UsesIff(c: Config)
    ensures UsesFeedback(c) <==> TransportSeqNumId(c) != 0
  {
    hide HasId, TransportSeqNumId;
    FeedbackIs(c);
    assert HasId(c.extensions, TRANSPORT_SEQUENCE_NUMBER_URI, TransportSeqNumId(c));
  }

  // ---------------------------------------------------------------------
  // The allocator's copy
  // ---------------------------------------------------------------------

  /** While registered, the allocator holds what the current configuration, overhead and
      ranges call for. */
  ghost predicate AllocationCurrent(s: Stream) {
    s.rates.registered ==>
      s.rates.allocation == AllocationFor(s.trials, s.config.limits, s.rates.overhead, s.rates.ranges)
  }

  /** A registered stream's reconfiguration returns early although it has re-read the ranges. */
  predicate KeepsRegistration(s: Stream, op: Op) {
    op.OpReconfigure? && s.rates.registered && ObserverUnchanged(s.config, op.config)
  }

  lemma OverheadKeepsCurrent(trials: Trials, limits: Limits, r: Rates, moduleOverhead: nat)
    requires r.registered ==> r.allocation == AllocationFor(trials, limits, r.overhead, r.ranges)
    requires UpdateOverhead(trials, limits, r, moduleOverhead).Running?
    ensures var r' := UpdateOverhead(trials, limits, r, moduleOverhead).value;
            && r'.registered == r.registered && r'.ranges == r.ranges
            && (r'.registered ==> r'.allocation == AllocationFor(trials, limits, r'.overhead, r'.ranges))
  {
    hide AllocationFor;
  }

  /** The ranges the stream will have read after an operation. */
  function RangesAfter(s: Stream, op: Op): Ranges {
    if op.OpReconfigure? && (s.codec.encoder.Some? || Recreates(s.config, op.config, op.env))
    then Ranges(op.env.frameLengths,
                if BareAfter(s.codec.encoder, s.config, op.config, op.env) then op.env.bitrateRange else None)
    else s.rates.ranges
  }

  lemma UpdateKeepsRanges(trials: Trials, limits: Limits, r: Rates, moduleOverhead: nat)
    requires UpdateOverhead(trials, limits, r, moduleOverhead).Running?
    ensures UpdateOverhead(trials, limits, r, moduleOverhead).value.ranges == r.ranges
  {
    hide AllocationFor;
  }

  lemma ReconfigureReadsRanges(s: Stream, c: Config, env: Surroundings)
    requires ConfigureStream(s, c, false, env).Running?
    ensures var s' := ConfigureStream(s, c, false, env).value;
            s'.rates.ranges == ReadRanges(s'.codec, env, s.rates.ranges)
  {
    hide ConfigureLinks, ReconfigureSendCodec, UpdateOverhead, PollCodec, TellRate, ReadRanges,
         ReconfigureBitrateObserver, AsksForLimits, ForwardedRate;
    UpdateKeepsRanges(s.trials, s.config.limits, s.rates, env.moduleOverhead);
    var k := ReconfigureSendCodec(s.codec, s.config, c, s.rates.overhead, s.sending, env).value;
    var rates := UpdateOverhead(s.trials, s.config.limits, s.rates, env.moduleOverhead).value;
    var told := PollCodec(k, s.trials, s.config.limits, s.rates, rates, env.overheadAnswer);
    var ranged := rates.(ranges := ReadRanges(told, env, rates.ranges));
    if s.sending {
      ObserverKeepsOverhead(s.trials, ranged, s.config, c);
      var observed := ReconfigureBitrateObserver(s.trials, ranged, s.config, c).value;
      RateKeepsRanges(told, ForwardedRate(s.trials, c.limits, observed.overhead, observed.ranges, env.limitsAnswer),
                      env, rates.ranges);
    }
  }

  lemma RateKeepsRanges(k: Codec, bps: nat, env: Surroundings, ranges: Ranges)
    ensures ReadRanges(TellRate(k, bps), env, ranges) == ReadRanges(k, env, ranges)
  {
  }

  lemma RangesForeseen(s: Stream, c: Config, env: Surroundings)
    requires ConfigureStream(s, c, false, env).Running?
    ensures ConfigureStream(s, c, false, env).value.rates.ranges == RangesAfter(s, OpReconfigure(c, env))
  {
    hide ConfigureStream, ReconfigureSendCodec, TellOverhead, BareAfter, NoisyAfter, Recreates, Retargeted;
    ReconfigureReadsRanges(s, c, env);
    StepCodec(s, OpReconfigure(c, env));
    LayersForeseen(s.codec, s.config, c, s.rates.overhead, s.sending, env);
    var k := ReconfigureSendCodec(s.codec, s.config, c, s.rates.overhead, s.sending, env).value;
    var s' := ConfigureStream(s, c, false, env).value;
    TellKeepsLayers(k, s.rates.overhead, s'.rates.overhead);
    var told := TellOverhead(k, s.rates.overhead, s'.rates.overhead);
    RetargetKeepsInstalled(told, s'.codec);
  }

  lemma RetargetKeepsInstalled(k: Codec, k': Codec)
    requires Retargeted(k, k')
    ensures k'.encoder.Some? <==> k.encoder.Some?
    ensures k.encoder.Some? ==> k'.encoder.value.Speech? == k.encoder.value.Speech?
  {
    if k.encoder.Some? {
      RetargetKeepsLayers(k, k');
    }
  }

  /** The allocator's copy, exactly, on what is known before the operation.  From a state in
      which it is current, an operation leads to another one unless it keeps a registration
      although the ranges it re-reads call for another one. */
  lemma AllocationCurrentIff(s: Stream, op: Op)
    requires Alive(s) && AllocationCurrent(s) && Step(s, op).Running?
    ensures AllocationCurrent(Step(s, op).value) <==> StepRefreshes(s, op)
  {
    hide ConfigureStream, UpdateOverhead, AllocationFor, StartsAllocated, PollCodec, TellRate, RangesAfter,
         ForwardedRate;
    match op
    case OpReconfigure(c, env) => {
      hide ObserverUnchanged;
      ReconfiguredAllocation(s, c, env);
      RangesForeseen(s, c, env);
      OverheadForeseen(s, op);
      SameLimits(s.config, c);
    }
    case OpStart(_) => {}
    case OpStop => {}
    case OpSetTransportOverhead(bytes, moduleOverhead, _) => {
      OverheadKeepsCurrent(s.trials, s.config.limits, s.rates.(transportOverhead := bytes), moduleOverhead);
    }
    case OpDeliverRtcp(moduleOverhead, _) => {
      OverheadKeepsCurrent(s.trials, s.config.limits, s.rates, moduleOverhead);
    }
    case OpBitrateUpdated(_) => {}
  }

  /** The operation does not take the early return, or the ranges it will read call for the
      same values as those read before. */
  predicate StepRefreshes(s: Stream, op: Op) {
    || !KeepsRegistration(s, op)
    || AllocationFor(s.trials, s.config.limits, OverheadAfter(s, op), RangesAfter(s, op)) ==
       AllocationFor(s.trials, s.config.limits, OverheadAfter(s, op), s.rates.ranges)
  }

  lemma SameLimits(previous: Config, next: Config)
    ensures ObserverUnchanged(previous, next) ==> previous.limits == next.limits
  {
    hide TransportSeqNumId;
  }

  /** A reconfiguration that keeps the registration leaves in the allocator what the ranges
      before it call for; any other one leaves what those after it call for. */
  lemma ReconfiguredAllocation(s: Stream, c: Config, env: Surroundings)
    requires Alive(s) && AllocationCurrent(s) && ConfigureStream(s, c, false, env).Running?
    ensures var s', op := ConfigureStream(s, c, false, env).value, OpReconfigure(c, env);
            && s'.trials == s.trials && s'.config == c
            && (s'.rates.registered ==>
                  s'.rates.allocation ==
                  AllocationFor(s.trials, c.limits, s'.rates.overhead,
                                if KeepsRegistration(s, op) then s.rates.ranges else s'.rates.ranges))
            && (KeepsRegistration(s, op) ==> s'.rates.registered)
  {
    hide ConfigureLinks, ReconfigureSendCodec, UpdateOverhead, AllocationFor, PollCodec, TellRate, ReadRanges,
         TransportSeqNumId, ForwardedRate;
    OverheadKeepsCurrent(s.trials, s.config.limits, s.rates, env.moduleOverhead);
  }

  /** Each of the operations meets its condition. */
  ghost predicate AllRefresh(trials: Trials, c: Config, env: Surroundings, ops: seq<Op>) {
    ops != [] ==>
      var before := ops[..|ops| - 1];
      && AllRefresh(trials, c, env, before)
      && (Run(trials, c, env, before).Running? ==> StepRefreshes(Run(trials, c, env, before).value, ops[|ops| - 1]))
  }

  /** The allocator's copy is current after construction and after each operation. */
  ghost predicate CurrentThroughout(trials: Trials, c: Config, env: Surroundings, ops: seq<Op>) {
    && (ops != [] ==> CurrentThroughout(trials, c, env, ops[..|ops| - 1]))
    && (Run(trials, c, env, ops).Running? ==> AllocationCurrent(Run(trials, c, env, ops).value))
  }

  /** Over whole runs, ranges that change included. */
  lemma {:induction false} RunAllocationCurrentIff(trials: Trials, c: Config, env: Surroundings, ops: seq<Op>)
    requires Run(trials, c, env, ops).Running?
    ensures CurrentThroughout(trials, c, env, ops) <==> AllRefresh(trials, c, env, ops)
    decreases |ops|
  {
    hide Construct, Step, AllocationCurrent, StepRefreshes;
    if ops == [] {
      NotRegisteredAtFirst(trials, c, env);
    } else {
      var before := ops[..|ops| - 1];
      var s := Run(trials, c, env, before).value;
      RunAllocationCurrentIff(trials, c, env, before);
      RunAlive(trials, c, env, before);
      if AllocationCurrent(s) {
        AllocationCurrentIff(s, ops[|ops| - 1]);
      }
    }
  }

  /** The ranges the stream has read stay the same while it is registered. */
  ghost predicate RangesSteady(trials: Trials, c: Config, env: Surroundings, ops: seq<Op>) {
    forall i :: 0 <= i < |ops| ==> SteadyAt(trials, c, env, ops, i)
  }

  ghost predicate SteadyAt(trials: Trials, c: Config, env: Surroundings, ops: seq<Op>, i: nat)
    requires i < |ops|
  {
    var before, after := Run(trials, c, env, ops[..i]), Run(trials, c, env, ops[..i + 1]);
    before.Running? && after.Running? && before.value.rates.registered && ops[i].OpReconfigure? ==>
      after.value.rates.ranges == before.value.rates.ranges
  }

  /** In every run in which the encoder's ranges do not change while the stream is registered,
      the allocator's copy is always current. */
  lemma {:induction false} RunAllocationCurrent(trials: Trials, c: Config, env: Surroundings, ops: seq<Op>)
    requires Run(trials, c, env, ops).Running? && RangesSteady(trials, c, env, ops)
    ensures var s := Run(trials, c, env, ops).value;
            && AllocationCurrent(s)
            && (s.rates.registered ==>
                  && s.rates.allocation.Some?
                  && EntryIs(trials, s.config.limits, s.rates.overhead, s.rates.ranges, s.rates.allocation.value))
    decreases |ops|
  {
    hide Step, Construct, AllocationFor, ObserverUnchanged, RangesAfter, OverheadAfter, EntryIs, Allocatable;
    var n := |ops|;
    RunAlive(trials, c, env, ops);
    RunSwitchesOn(trials, c, env, ops);
    var s := Run(trials, c, env, ops).value;
    EntryFields(trials, s.config.limits, s.rates.overhead, s.rates.ranges);
    if ops == [] {
      NotRegisteredAtFirst(trials, c, env);
    } else {
      var before := ops[..n - 1];
      forall i | 0 <= i < n - 1
        ensures SteadyAt(trials, c, env, before, i)
      {
        assert SteadyAt(trials, c, env, ops, i);
        assert before[..i] == ops[..i] && before[..i + 1] == ops[..i + 1];
      }
      RunAllocationCurrent(trials, c, env, before);
      RunAlive(trials, c, env, before);
      AllocationCurrentIff(Run(trials, c, env, before).value, ops[n - 1]);
      if ops[n - 1].OpReconfigure? {
        RangesForeseenAt(Run(trials, c, env, before).value, ops[n - 1]);
      }
      assert SteadyAt(trials, c, env, ops, n - 1);
      assert ops[..n] == ops;
    }
  }

  lemma RangesForeseenAt(s: Stream, op: Op)
    requires Step(s, op).Running? && op.OpReconfigure?
    ensures Step(s, op).value.rates.ranges == RangesAfter(s, op)
  {
    hide ConfigureStream, RangesAfter;
    RangesForeseen(s, op.config, op.env);
  }

  lemma NotRegisteredAtFirst(trials: Trials, c: Config, env: Surroundings)
    requires Construct(trials, c, env).Running?
    ensures !Construct(trials, c, env).value.rates.registered
    ensures AllocationCurrent(Construct(trials, c, env).value)
  {
    hide ConfigureStream;
    ConfigureKeepsAlive(NewStream(trials), c, true, env);
    StaysStopped(NewStream(trials), c, true, env);
  }

  lemma StaysStopped(s: Stream, c: Config, first: bool, env: Surroundings)
    requires ConfigureStream(s, c, first, env).Running?
    ensures ConfigureStream(s, c, first, env).value.sending == s.sending
  {
    hide ConfigureLinks, ReconfigureSendCodec, UpdateOverhead, AllocationFor, PollCodec, TellRate, ForwardedRate;
  }
}
