/** The audio send stream of audio/audio_send_stream.cc and the parts of its collaborators
    it mirrors its configuration into, as values.

    Each function here is the effect of one function of the source, with the collaborators'
    own code (audio/channel_send.cc, the RTP module's extension map, the comfort-noise and
    RED encoders) where it decides the effect.  `Crashed` stands for a failed RTC_CHECK and
    for reading an empty optional, after which the program has no defined state. */
module SendStreamModel {
  import opened Basics
  import opened RtpExtensions

  datatype Outcome<+T> = Running(value: T) | Crashed {
    predicate IsFailure() {
      Crashed?
    }

    function PropagateFailure<U>(): Outcome<U>
      requires Crashed?
    {
      Crashed
    }

    function Extract(): T
      requires Running?
    {
      value
    }
  }

  // ---------------------------------------------------------------------
  // Configuration
  // ---------------------------------------------------------------------

  datatype AudioFormat = AudioFormat(name: string, clockrateHz: int, channels: nat, parameters: map<string, string>)

  function ToLower(c: char): char {
    if 'A' <= c <= 'Z' then (c as int + 32) as char else c
  }

  function Lower(s: string): string {
    seq(|s|, i requires 0 <= i < |s| => ToLower(s[i]))
  }

  /** operator== of SdpAudioFormat: codec names are compared without regard to case. */
  predicate SameFormat(a: AudioFormat, b: AudioFormat) {
    Lower(a.name) == Lower(b.name) && a.(name := "") == b.(name := "")
  }

  datatype SendCodecSpec = SendCodecSpec(
    payloadType: int,
    format: AudioFormat,
    nackEnabled: bool,
    transportCcEnabled: bool,
    enableNonSenderRtt: bool,
    cngPayloadType: Option<int>,
    redPayloadType: Option<int>,
    targetBitrateBps: Option<int>)

  predicate SameSpec(a: SendCodecSpec, b: SendCodecSpec) {
    SameFormat(a.format, b.format) && a.(format := b.format) == b
  }

  predicate SameOptionalSpec(a: Option<SendCodecSpec>, b: Option<SendCodecSpec>) {
    if a.Some? && b.Some? then SameSpec(a.value, b.value) else a.None? && b.None?
  }

  datatype Limits = Limits(minBitrateBps: int, maxBitrateBps: int, bitratePriority: real)

  /** Frame encryptors and transformers are shared objects, compared by address. */
  datatype Config = Config(
    ssrc: nat,
    mid: string,
    extmapAllowMixed: bool,
    extensions: Extensions,
    cName: string,
    limits: Limits,
    hasDscp: bool,
    audioNetworkAdaptor: Option<string>,
    sendCodecSpec: Option<SendCodecSpec>,
    frameEncryptor: Option<nat>,
    frameTransformer: Option<nat>)

  /** The value of config_ before the constructor configures the stream. */
  const DEFAULT_CONFIG :=
    Config(0, "", false, [], "", Limits(-1, -1, 1.0), false, None, None, None, None)

  /** Field trials the stream reads once, when it is constructed. */
  datatype Trials = Trials(
    allocateAudioWithoutFeedback: bool,
    legacyOverheadCalculation: bool,
    enablePriorityBitrate: bool,
    minBitrate: Option<nat>,
    maxBitrate: Option<nat>,
    priorityBitrate: nat,
    priorityBitrateRaw: Option<nat>,
    bitratePriority: Option<real>)

  // ---------------------------------------------------------------------
  // Extension ids
  // ---------------------------------------------------------------------

  const AUDIO_LEVEL_URI := "urn:ietf:params:rtp-hdrext:ssrc-audio-level"
  const ABS_SEND_TIME_URI := "http://www.webrtc.org/experiments/rtp-hdrext/abs-send-time"
  const ABS_CAPTURE_TIME_URI := "http://www.webrtc.org/experiments/rtp-hdrext/abs-capture-time"
  const TRANSPORT_SEQUENCE_NUMBER_URI :=
    "http://www.ietf.org/id/draft-holmer-rmcat-transport-wide-cc-extensions-01"
  const MID_URI := "urn:ietf:params:rtp-hdrext:sdes:mid"
  const RID_URI := "urn:ietf:params:rtp-hdrext:sdes:rtp-stream-id"
  const REPAIRED_RID_URI := "urn:ietf:params:rtp-hdrext:sdes:repaired-rtp-stream-id"

  datatype ExtensionIds = ExtensionIds(
    audioLevel: int,
    absSendTime: int,
    absCaptureTime: int,
    transportSequenceNumber: int,
    mid: int,
    rid: int,
    repairedRid: int)

  /** The id of the last entry with a URI, 0 if there is none. */
  function LastId(xs: Extensions, uri: string): int {
    if xs == [] then 0
    else if xs[|xs| - 1].uri == uri then xs[|xs| - 1].id
    else LastId(xs[..|xs| - 1], uri)
  }

  function IdsOf(xs: Extensions): ExtensionIds {
    ExtensionIds(
      LastId(xs, AUDIO_LEVEL_URI), LastId(xs, ABS_SEND_TIME_URI), LastId(xs, ABS_CAPTURE_TIME_URI),
      LastId(xs, TRANSPORT_SEQUENCE_NUMBER_URI), LastId(xs, MID_URI), LastId(xs, RID_URI),
      LastId(xs, REPAIRED_RID_URI))
  }

  function TransportSeqNumId(c: Config): int {
    LastId(c.extensions, TRANSPORT_SEQUENCE_NUMBER_URI)
  }

  /** The extensions the stream registers with the RTP module. */
  datatype ExtensionKind = AudioLevel | AbsSendTime | TransportSequenceNumber | Mid | AbsCaptureTime

  type Registered = map<ExtensionKind, int>

  const MIN_ID := 1
  const MAX_ID := 255

  /** RegisterRtpHeaderExtension: RtpHeaderExtensionMap refuses an id out of range, an id in
      use by another extension and an extension registered under another id; the RTP module
      checks that it did not. */
  function Register(ids: Registered, kind: ExtensionKind, id: int): Outcome<Registered> {
    if !(MIN_ID <= id <= MAX_ID) then Crashed
    else if kind in ids && ids[kind] == id then Running(ids)
    else if id in ids.Values || kind in ids then Crashed
    else Running(ids[kind := id])
  }

  /** The registered id, 0 if there is none. */
  function IdOf(ids: Registered, kind: ExtensionKind): int {
    if kind in ids then ids[kind] else 0
  }

  // ---------------------------------------------------------------------
  // Settings mirrored into the channel, the RTP module and the event log
  // ---------------------------------------------------------------------

  datatype CongestionCall = RegisterCongestionControl | ResetCongestionControl

  datatype LogEntry = LogEntry(ssrc: nat, extensions: Extensions, codec: Option<(string, int)>)

  datatype Links = Links(
    cName: string,
    frameEncryptor: Option<nat>,
    frameTransformer: Option<nat>,
    includeAudioLevel: bool,
    congestionCalls: seq<CongestionCall>,
    extmapAllowMixed: bool,
    ids: Registered,
    mid: string,
    log: seq<LogEntry>)

  const NEW_LINKS := Links("", None, None, false, [], false, map[], "", [])

  const MAX_CNAME := 255

  /** ChannelSend::SetRTCP_CNAME keeps at most 255 characters. */
  function Truncated(cName: string): string {
    if |cName| <= MAX_CNAME then cName else cName[..MAX_CNAME]
  }

  function LogEntryOf(c: Config): LogEntry {
    LogEntry(c.ssrc, c.extensions,
             if c.sendCodecSpec.Some?
             then Some((c.sendCodecSpec.value.format.name, c.sendCodecSpec.value.payloadType))
             else None)
  }

  /** UpdateEventLogStreamConfig's comparison of what is logged about the codec. */
  predicate SamePayloadType(a: Option<SendCodecSpec>, b: Option<SendCodecSpec>) {
    if a.Some? && b.Some?
    then a.value.format.name == b.value.format.name && a.value.payloadType == b.value.payloadType
    else a.None? && b.None?
  }

  function UpdateEventLog(l: Links, previous: Config, next: Config, first: bool): Links {
    if !first && next.ssrc == previous.ssrc && next.extensions == previous.extensions
       && SamePayloadType(next.sendCodecSpec, previous.sendCodecSpec)
    then l
    else l.(log := l.log + [LogEntryOf(next)])
  }

  /** The plain settings, up to extmap-allow-mixed.  ChannelSend ignores a null transformer. */
  function ConfigureChannel(l: Links, previous: Config, next: Config, first: bool): Links {
    l.(cName := if first || previous.cName != next.cName then Truncated(next.cName) else l.cName,
       frameEncryptor :=
         if first || next.frameEncryptor != previous.frameEncryptor then next.frameEncryptor else l.frameEncryptor,
       frameTransformer :=
         if (first || next.frameTransformer != previous.frameTransformer) && next.frameTransformer.Some?
         then next.frameTransformer else l.frameTransformer,
       extmapAllowMixed :=
         if first || next.extmapAllowMixed != previous.extmapAllowMixed
         then next.extmapAllowMixed else l.extmapAllowMixed)
  }

  /** ChannelSend::SetSendAudioLevelIndicationStatus registers without deregistering first. */
  function ConfigureAudioLevel(l: Links, o: ExtensionIds, n: ExtensionIds, first: bool): Outcome<Links> {
    if !first && n.audioLevel == o.audioLevel then Running(l)
    else if n.audioLevel == 0 then Running(l.(includeAudioLevel := false, ids := l.ids - {AudioLevel}))
    else
      var ids :- Register(l.ids, AudioLevel, n.audioLevel);
      Running(l.(includeAudioLevel := true, ids := ids))
  }

  /** Deregister, then register unless the new id is 0. */
  function Reregister(l: Links, kind: ExtensionKind, o: int, n: int, first: bool): Outcome<Links> {
    if !first && n == o then Running(l)
    else if n == 0 then Running(l.(ids := l.ids - {kind}))
    else
      var ids :- Register(l.ids - {kind}, kind, n);
      Running(l.(ids := ids))
  }

  function ConfigureFeedback(trials: Trials, l: Links, o: ExtensionIds, n: ExtensionIds, first: bool): Outcome<Links> {
    var changed := n.transportSequenceNumber != o.transportSequenceNumber;
    if !first && !(changed && !trials.allocateAudioWithoutFeedback) then Running(l)
    else
      var reset := if first then [] else [ResetCongestionControl];
      var ids :-
        if !trials.allocateAudioWithoutFeedback && n.transportSequenceNumber != 0
        then Register(l.ids, TransportSequenceNumber, n.transportSequenceNumber)
        else Running(l.ids);
      Running(l.(ids := ids, congestionCalls := l.congestionCalls + reset + [RegisterCongestionControl]))
  }

  /** The MID extension is registered but never deregistered. */
  function ConfigureMid(l: Links, o: ExtensionIds, n: ExtensionIds, previous: Config, next: Config, first: bool)
    : Outcome<Links>
  {
    if (first || n.mid != o.mid || next.mid != previous.mid) && n.mid != 0 && next.mid != "" then
      var ids :- Register(l.ids, Mid, n.mid);
      Running(l.(ids := ids, mid := next.mid))
    else Running(l)
  }

  /** ConfigureStream up to the codec. */
  function ConfigureLinks(trials: Trials, l: Links, previous: Config, next: Config, first: bool): Outcome<Links> {
    var o, n := IdsOf(previous.extensions), IdsOf(next.extensions);
    var logged := UpdateEventLog(l, previous, next, first);
    var channel := ConfigureChannel(logged, previous, next, first);
    var a :- ConfigureAudioLevel(channel, o, n, first);
    var b :- Reregister(a, AbsSendTime, o.absSendTime, n.absSendTime, first);
    var c :- ConfigureFeedback(trials, b, o, n, first);
    var d :- ConfigureMid(c, o, n, previous, next, first);
    Reregister(d, AbsCaptureTime, o.absCaptureTime, n.absCaptureTime, first)
  }

  // ---------------------------------------------------------------------
  // Encoders
  // ---------------------------------------------------------------------

  /** A speech encoder of the factory, possibly inside comfort-noise and RED encoders.
      `serial` tells speech encoders apart; `overhead` and `targetBitrate` are the last
      values the speech encoder was told. */
  datatype Encoder =
    | Speech(serial: nat, format: AudioFormat, payloadType: int, sampleRateHz: int, channels: nat,
             max10MsFrames: nat, targetBitrate: Option<int>, adaptor: Option<string>, overhead: nat)
    | Cng(payloadType: int, inner: Encoder)
    | Red(payloadType: int, inner: Encoder)
  {
    function SampleRateHz(): int {
      match this
      case Speech(_, _, _, hz, _, _, _, _, _) => hz
      case Cng(_, e) => e.SampleRateHz()
      case Red(_, e) => e.SampleRateHz()
    }

    function NumChannels(): nat {
      match this
      case Speech(_, _, _, _, n, _, _, _, _) => n
      case Cng(_, _) => 1
      case Red(_, e) => e.NumChannels()
    }

    function Max10MsFrames(): nat {
      match this
      case Speech(_, _, _, _, _, n, _, _, _) => n
      case Cng(_, e) => e.Max10MsFrames()
      case Red(_, e) => e.Max10MsFrames()
    }

    /** The comfort-noise encoder does not override this call, so it ends there. */
    function OnReceivedOverhead(bytes: nat): Encoder {
      match this
      case Speech(_, _, _, _, _, _, _, _, _) => this.(overhead := bytes)
      case Cng(_, _) => this
      case Red(t, e) => Red(t, e.OnReceivedOverhead(bytes))
    }

    /** The wrappers forward a target, and the target of an uplink allocation likewise. */
    function OnReceivedTargetAudioBitrate(bps: int): Encoder {
      match this
      case Speech(_, _, _, _, _, _, _, _, _) => this.(targetBitrate := Some(bps))
      case Cng(t, e) => Cng(t, e.OnReceivedTargetAudioBitrate(bps))
      case Red(t, e) => Red(t, e.OnReceivedTargetAudioBitrate(bps))
    }

    /** Like the overhead, an adaptor request does not pass a comfort-noise encoder. */
    function EnableAdaptor(config: string, accepted: bool): (Encoder, bool) {
      match this
      case Speech(_, _, _, _, _, _, _, _, _) => (this.(adaptor := if accepted then Some(config) else None), accepted)
      case Cng(_, _) => (this, false)
      case Red(t, e) => var (e', ok) := e.EnableAdaptor(config, accepted); (Red(t, e'), ok)
    }

    function DisableAdaptor(): Encoder {
      match this
      case Speech(_, _, _, _, _, _, _, _, _) => this.(adaptor := None)
      case Cng(_, _) => this
      case Red(t, e) => Red(t, e.DisableAdaptor())
    }

    /** ReclaimContainedEncoders, or the encoder itself if it contains none. */
    function Peeled(): Encoder {
      if Speech? then this else inner
    }

    /** The innermost speech encoder. */
    function Core(): Encoder {
      if Speech? then this else inner.Core()
    }

    predicate HasCng() {
      match this
      case Speech(_, _, _, _, _, _, _, _, _) => false
      case Cng(_, _) => true
      case Red(_, e) => e.HasCng()
    }
  }

  const SID_FRAME_INTERVAL_MS := 100

  /** CreateComfortNoiseEncoder checks AudioEncoderCngConfig::IsOk. */
  function CreateComfortNoise(payloadType: int, speech: Encoder): Outcome<Encoder> {
    if speech.NumChannels() == 1 && speech.Max10MsFrames() * 10 <= SID_FRAME_INTERVAL_MS
    then Running(Cng(payloadType, speech))
    else Crashed
  }

  datatype EncoderProperties = EncoderProperties(sampleRateHz: int, channels: nat)

  /** The installed encoder, what the stream stored about it, and what AudioState's map
      holds for the stream. */
  datatype Codec = Codec(
    encoder: Option<Encoder>,
    stored: EncoderProperties,
    audioState: Option<EncoderProperties>,
    created: nat)

  /** What the encoder factory returns. */
  datatype Created = Created(sampleRateHz: int, channels: nat, max10MsFrames: nat)

  datatype FrameLengths = FrameLengths(shortest: Micros, longest: Micros)

  type Micros = x: int | 0 < x witness 1

  datatype Bounds = Bounds(min: nat, max: nat)

  /** What a ConfigureStream call meets: the factory's answer, the encoder's answer to an
      adaptor request, the overhead the RTP module expects, the ranges the speech encoder
      reports, and the rates the allocator answers with if the stream registers for a new
      overhead and for new limits. */
  datatype Surroundings = Surroundings(
    created: Option<Created>,
    adaptorAccepted: bool,
    moduleOverhead: nat,
    frameLengths: Option<FrameLengths>,
    bitrateRange: Option<Bounds>,
    overheadAnswer: nat,
    limitsAnswer: nat)

  /** StoreEncoderProperties; a sending stream also updates AudioState. */
  function StoreEncoderProperties(k: Codec, p: EncoderProperties, sending: bool): Codec {
    k.(stored := p, audioState := if sending then Some(p) else k.audioState)
  }

  /** SetupSendCodec; nothing is installed if the factory fails. */
  function SetupSendCodec(k: Codec, c: Config, overhead: nat, sending: bool, env: Surroundings): Outcome<Codec>
    requires c.sendCodecSpec.Some?
  {
    if env.created.None? then Running(k)
    else
      var spec, made := c.sendCodecSpec.value, env.created.value;
      var speech := Speech(k.created, spec.format, spec.payloadType, made.sampleRateHz, made.channels,
                           made.max10MsFrames, spec.targetBitrateBps, None, 0);
      var adapted :=
        if c.audioNetworkAdaptor.Some?
        then speech.EnableAdaptor(c.audioNetworkAdaptor.value, env.adaptorAccepted).0
        else speech;
      var cng :- if spec.cngPayloadType.Some? then CreateComfortNoise(spec.cngPayloadType.value, adapted)
                 else Running(adapted);
      var red := if spec.redPayloadType.Some? then Red(spec.redPayloadType.value, cng) else cng;
      var told := if overhead > 0 then red.OnReceivedOverhead(overhead) else red;
      var properties := EncoderProperties(told.SampleRateHz(), told.NumChannels());
      Running(StoreEncoderProperties(k, properties, sending).(encoder := Some(told), created := k.created + 1))
  }

  function ReconfigureAna(e: Encoder, previous: Config, next: Config, overhead: nat, accepted: bool): Encoder {
    if next.audioNetworkAdaptor == previous.audioNetworkAdaptor then e
    else if next.audioNetworkAdaptor.Some? then
      var (e', ok) := e.EnableAdaptor(next.audioNetworkAdaptor.value, accepted);
      if ok && overhead > 0 then e'.OnReceivedOverhead(overhead) else e'
    else e.DisableAdaptor()
  }

  /** ReconfigureCNG peels one layer, whatever it is. */
  function ReconfigureCng(e: Encoder, previous: SendCodecSpec, next: SendCodecSpec): Outcome<Encoder> {
    if next.cngPayloadType == previous.cngPayloadType then Running(e)
    else if next.cngPayloadType.Some? then CreateComfortNoise(next.cngPayloadType.value, e.Peeled())
    else Running(e.Peeled())
  }

  /** Whether ReconfigureSendCodec leaves everything as it is. */
  predicate CodecUnchanged(previous: Config, next: Config) {
    || next.sendCodecSpec.None?
    || (SameOptionalSpec(next.sendCodecSpec, previous.sendCodecSpec)
        && next.audioNetworkAdaptor == previous.audioNetworkAdaptor)
  }

  /** Whether ReconfigureSendCodec creates a new encoder. */
  predicate NeedsNewEncoder(previous: Config, next: Config) {
    && !CodecUnchanged(previous, next)
    && (|| previous.sendCodecSpec.None?
        || !SameFormat(next.sendCodecSpec.value.format, previous.sendCodecSpec.value.format)
        || next.sendCodecSpec.value.payloadType != previous.sendCodecSpec.value.payloadType
        || next.sendCodecSpec.value.redPayloadType != previous.sendCodecSpec.value.redPayloadType)
  }

  /** The installed encoder is called only if there is one; ReconfigureCNG takes it for
      granted. */
  function ReconfigureSendCodec(k: Codec, previous: Config, next: Config, overhead: nat, sending: bool,
                                env: Surroundings): Outcome<Codec>
  {
    if CodecUnchanged(previous, next) then Running(k)
    else if NeedsNewEncoder(previous, next) then SetupSendCodec(k, next, overhead, sending, env)
    else if k.encoder.None? then
      if next.sendCodecSpec.value.cngPayloadType == previous.sendCodecSpec.value.cngPayloadType
      then Running(k)
      else Crashed
    else
      var n, o := next.sendCodecSpec.value, previous.sendCodecSpec.value;
      var e := k.encoder.value;
      var targeted :=
        if n.targetBitrateBps.Some? && n.targetBitrateBps != o.targetBitrateBps
        then e.OnReceivedTargetAudioBitrate(n.targetBitrateBps.value)
        else e;
      var adapted := ReconfigureAna(targeted, previous, next, overhead, env.adaptorAccepted);
      var wrapped :- ReconfigureCng(adapted, o, n);
      Running(k.(encoder := Some(wrapped)))
  }

  // ---------------------------------------------------------------------
  // Rates
  // ---------------------------------------------------------------------

  datatype Ranges = Ranges(frameLengths: Option<FrameLengths>, bitrates: Option<Bounds>)

  datatype Allocation = Allocation(min: nat, max: nat, priorityBitrate: nat, bitratePriority: real)

  datatype Rates = Rates(
    transportOverhead: nat,
    overhead: nat,                   // overhead_per_packet_
    channelOverhead: nat,            // what the channel's bitrate accountant was told
    ranges: Ranges,
    registered: bool,                // registered_with_allocator_
    allocation: Option<Allocation>,  // the stream's entry in the bitrate allocator
    partOfAllocation: bool)

  const ACCOUNTANT_DEFAULT_OVERHEAD := 72

  const NEW_RATES :=
    Rates(0, 0, ACCOUNTANT_DEFAULT_OVERHEAD, Ranges(None, None), false, None, false)

  const LEGACY_OVERHEAD_BYTES := 20 + 8 + 10 + 12
  const LEGACY_MAX_FRAME := 60_000
  const LEGACY_MIN_PACKET := 20_000

  /** DataSize / TimeDelta in bits per second. */
  function Rate(bytes: nat, us: Micros): nat {
    bytes * 8_000_000 / us
  }

  /** The bitrate range before overhead: the configuration, overridden by the field trial,
      overridden by the encoder. */
  function PayloadBounds(trials: Trials, limits: Limits, ranges: Ranges): Bounds
    requires limits.minBitrateBps >= 0 && limits.maxBitrateBps >= 0
  {
    if ranges.bitrates.Some? then ranges.bitrates.value
    else Bounds(if trials.minBitrate.Some? then trials.minBitrate.value else limits.minBitrateBps,
                if trials.maxBitrate.Some? then trials.maxBitrate.value else limits.maxBitrateBps)
  }

  /** GetMinMaxBitrateConstraints. */
  function Constraints(trials: Trials, limits: Limits, overhead: nat, ranges: Ranges): Option<Bounds> {
    if limits.minBitrateBps < 0 || limits.maxBitrateBps < 0 then None
    else
      var b := PayloadBounds(trials, limits, ranges);
      if b.max < b.min then None
      else if trials.legacyOverheadCalculation then
        var minOverhead := Rate(LEGACY_OVERHEAD_BYTES, LEGACY_MAX_FRAME);
        Some(Bounds(b.min + minOverhead, b.max + minOverhead))
      else if ranges.frameLengths.None? then None
      else
        Some(Bounds(b.min + Rate(overhead, ranges.frameLengths.value.longest),
                    b.max + Rate(overhead, ranges.frameLengths.value.shortest)))
  }

  function PriorityBitrate(trials: Trials, overhead: nat, ranges: Ranges): nat
    requires !trials.legacyOverheadCalculation ==> ranges.frameLengths.Some?
  {
    if !trials.enablePriorityBitrate then 0
    else if trials.priorityBitrateRaw.Some? then trials.priorityBitrateRaw.value
    else
      trials.priorityBitrate +
      if trials.legacyOverheadCalculation then Rate(LEGACY_OVERHEAD_BYTES, LEGACY_MIN_PACKET)
      else Rate(overhead, ranges.frameLengths.value.longest)
  }

  /** What the allocator should hold for a stream with these limits, overhead and ranges. */
  function AllocationFor(trials: Trials, limits: Limits, overhead: nat, ranges: Ranges): Option<Allocation> {
    var c := Constraints(trials, limits, overhead, ranges);
    if c.None? then None
    else
      Some(Allocation(
        c.value.min, c.value.max, PriorityBitrate(trials, overhead, ranges),
        if trials.bitratePriority.Some? then trials.bitratePriority.value else limits.bitratePriority))
  }

  /** ConfigureBitrateObserver reads constraints that it asserts to exist. */
  function ConfigureBitrateObserver(trials: Trials, limits: Limits, r: Rates): Outcome<Rates> {
    var a := AllocationFor(trials, limits, r.overhead, r.ranges);
    if a.None? then Crashed else Running(r.(allocation := a, registered := true))
  }

  /** OnBitrateUpdated: what is forwarded for a rate the allocator sends. */
  function Clamped(rate: nat, b: Bounds): nat {
    var upper := if rate < b.max then rate else b.max;
    if upper < b.min then b.min else upper
  }

  function ForwardedRate(trials: Trials, limits: Limits, overhead: nat, ranges: Ranges, rate: nat): nat {
    var c := Constraints(trials, limits, overhead, ranges);
    if c.None? then rate else Clamped(rate, c.value)
  }

  /** OnBitrateUpdated, its effect on the encoder. */
  function TellRate(k: Codec, bps: nat): Codec {
    if k.encoder.None? then k
    else k.(encoder := Some(k.encoder.value.OnReceivedTargetAudioBitrate(bps)))
  }

  function RemoveBitrateObserver(r: Rates): Rates {
    r.(registered := false, allocation := None)
  }

  /** UpdateOverheadPerPacket, its effect on the rates. */
  function UpdateOverhead(trials: Trials, limits: Limits, r: Rates, moduleOverhead: nat): Outcome<Rates> {
    var total := r.transportOverhead + moduleOverhead;
    if r.overhead == total then Running(r)
    else
      var changed := r.(overhead := total);
      var observed :-
        if changed.registered then ConfigureBitrateObserver(trials, limits, changed) else Running(changed);
      Running(observed.(channelOverhead := total))
  }

  /** ... and on the encoder. */
  function TellOverhead(k: Codec, before: nat, after: nat): Codec {
    if before == after || k.encoder.None? then k
    else k.(encoder := Some(k.encoder.value.OnReceivedOverhead(after)))
  }

  /** UpdateOverheadPerPacket registers again, and the allocator answers a registration at
      once. */
  predicate AsksForOverhead(before: Rates, after: Rates) {
    before.registered && after.overhead != before.overhead
  }

  /** UpdateOverheadPerPacket, its whole effect on the codec. */
  function PollCodec(k: Codec, trials: Trials, limits: Limits, before: Rates, after: Rates, answer: nat): Codec {
    var told := TellOverhead(k, before.overhead, after.overhead);
    if AsksForOverhead(before, after)
    then TellRate(told, ForwardedRate(trials, limits, after.overhead, after.ranges, answer))
    else told
  }

  /** The encoder's ranges are re-read if there is one; wrappers forward the frame lengths
      but not the bitrate range. */
  function ReadRanges(k: Codec, env: Surroundings, current: Ranges): Ranges {
    if k.encoder.None? then current
    else Ranges(env.frameLengths, if k.encoder.value.Speech? then env.bitrateRange else None)
  }

  /** The early return of ReconfigureBitrateObserver. */
  predicate ObserverUnchanged(previous: Config, next: Config) {
    && previous.limits == next.limits
    && TransportSeqNumId(previous) == TransportSeqNumId(next)
    && previous.audioNetworkAdaptor == next.audioNetworkAdaptor
  }

  predicate HasLimits(c: Config) {
    !c.hasDscp && c.limits.minBitrateBps != -1 && c.limits.maxBitrateBps != -1
  }

  /** ReconfigureBitrateObserver registers. */
  predicate AsksForLimits(previous: Config, next: Config) {
    !ObserverUnchanged(previous, next) && HasLimits(next) && TransportSeqNumId(next) != 0
  }

  function ReconfigureBitrateObserver(trials: Trials, r: Rates, previous: Config, next: Config): Outcome<Rates> {
    if ObserverUnchanged(previous, next) then Running(r)
    else if HasLimits(next) && TransportSeqNumId(next) != 0 then
      var observed :- ConfigureBitrateObserver(trials, next.limits, r);
      Running(observed.(partOfAllocation := true))
    else Running(RemoveBitrateObserver(r).(partOfAllocation := false))
  }

  // ---------------------------------------------------------------------
  // The stream
  // ---------------------------------------------------------------------

  datatype Stream = Stream(
    trials: Trials,
    config: Config,
    sending: bool,
    channelSending: bool,
    links: Links,
    codec: Codec,
    rates: Rates)

  function NewStream(trials: Trials): Stream {
    Stream(trials, DEFAULT_CONFIG, false, false, NEW_LINKS,
           Codec(None, EncoderProperties(0, 0), None, 0), NEW_RATES)
  }

  /** ConfigureStream from the codec on. */
  function ConfigureCodecAndRates(s: Stream, c: Config, env: Surroundings): Outcome<(Codec, Rates)> {
    var codec :- ReconfigureSendCodec(s.codec, s.config, c, s.rates.overhead, s.sending, env);
    var rates :- UpdateOverhead(s.trials, s.config.limits, s.rates, env.moduleOverhead);
    var told := PollCodec(codec, s.trials, s.config.limits, s.rates, rates, env.overheadAnswer);
    var ranged := rates.(ranges := ReadRanges(told, env, rates.ranges));
    var observed :- if s.sending then ReconfigureBitrateObserver(s.trials, ranged, s.config, c) else Running(ranged);
    var answered :=
      if s.sending && AsksForLimits(s.config, c)
      then TellRate(told, ForwardedRate(s.trials, c.limits, observed.overhead, observed.ranges, env.limitsAnswer))
      else told;
    Running((answered, observed))
  }

  function ConfigureStream(s: Stream, c: Config, first: bool, env: Surroundings): Outcome<Stream> {
    var links :- ConfigureLinks(s.trials, s.links, s.config, c, first);
    var (codec, rates) :- ConfigureCodecAndRates(s, c, env);
    Running(s.(config := c, links := links, codec := codec, rates := rates))
  }

  function Construct(trials: Trials, c: Config, env: Surroundings): Outcome<Stream> {
    ConfigureStream(NewStream(trials), c, true, env)
  }

  predicate StartsAllocated(s: Stream) {
    HasLimits(s.config) && (s.trials.allocateAudioWithoutFeedback || TransportSeqNumId(s.config) != 0)
  }

  function Start(s: Stream, answer: nat): Outcome<Stream> {
    if s.sending then Running(s)
    else
      var rates :-
        if StartsAllocated(s)
        then ConfigureBitrateObserver(s.trials, s.config.limits, s.rates.(partOfAllocation := true))
        else Running(s.rates.(partOfAllocation := false));
      var answered :=
        if StartsAllocated(s)
        then TellRate(s.codec, ForwardedRate(s.trials, s.config.limits, rates.overhead, rates.ranges, answer))
        else s.codec;
      Running(s.(sending := true, channelSending := true, rates := rates,
                 codec := answered.(audioState := Some(s.codec.stored))))
  }

  function Stop(s: Stream): Stream {
    if !s.sending then s
    else s.(sending := false, channelSending := false, rates := RemoveBitrateObserver(s.rates),
            codec := s.codec.(audioState := None))
  }

  /** UpdateOverheadPerPacket. */
  function PollOverhead(s: Stream, moduleOverhead: nat, answer: nat): Outcome<Stream> {
    var rates :- UpdateOverhead(s.trials, s.config.limits, s.rates, moduleOverhead);
    Running(s.(rates := rates, codec := PollCodec(s.codec, s.trials, s.config.limits, s.rates, rates, answer)))
  }

  function SetTransportOverhead(s: Stream, bytes: nat, moduleOverhead: nat, answer: nat): Outcome<Stream> {
    PollOverhead(s.(rates := s.rates.(transportOverhead := bytes)), moduleOverhead, answer)
  }

  function Forwarded(s: Stream, rate: nat): nat {
    ForwardedRate(s.trials, s.config.limits, s.rates.overhead, s.rates.ranges, rate)
  }

  function BitrateUpdated(s: Stream, target: nat): Stream {
    s.(codec := TellRate(s.codec, Forwarded(s, target)))
  }

  /** Operations on a constructed stream.  DeliverRtcp may change the overhead the RTP module
      expects and polls it.  `answer` is the rate the allocator answers a registration with;
      OpBitrateUpdated is an update it sends for other reasons. */
  datatype Op =
    | OpReconfigure(config: Config, env: Surroundings)
    | OpStart(answer: nat)
    | OpStop
    | OpSetTransportOverhead(bytes: nat, moduleOverhead: nat, answer: nat)
    | OpDeliverRtcp(moduleOverhead: nat, answer: nat)
    | OpBitrateUpdated(target: nat)

  function Step(s: Stream, op: Op): Outcome<Stream> {
    match op
    case OpReconfigure(c, env) => ConfigureStream(s, c, false, env)
    case OpStart(answer) => Start(s, answer)
    case OpStop => Running(Stop(s))
    case OpSetTransportOverhead(bytes, moduleOverhead, answer) =>
      SetTransportOverhead(s, bytes, moduleOverhead, answer)
    case OpDeliverRtcp(moduleOverhead, answer) => PollOverhead(s, moduleOverhead, answer)
    case OpBitrateUpdated(target) => Running(BitrateUpdated(s, target))
  }

  /** A run: construction with `c`, then the operations in order. */
  function Run(trials: Trials, c: Config, env: Surroundings, ops: seq<Op>): Outcome<Stream> {
    if ops == [] then Construct(trials, c, env)
    else
      var before :- Run(trials, c, env, ops[..|ops| - 1]);
      Step(before, ops[|ops| - 1])
  }
}
