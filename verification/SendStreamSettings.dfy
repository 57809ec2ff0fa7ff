/** Reconfiguring an audio send stream step by step against configuring it from scratch:
    the settings mirrored into the send channel, the RTP module and the event log. */
module SendStreamSettings {
  import opened Basics
  import opened RtpExtensions
  import opened SendStreamModel

  // ---------------------------------------------------------------------
  // FindExtensionIds
  // ---------------------------------------------------------------------

  lemma LastIdStep(xs: Extensions, i: nat, uri: string)
    requires i < |xs|
    ensures LastId(xs[..i + 1], uri) == if xs[i].uri == uri then xs[i].id else LastId(xs[..i], uri)
  {
    assert xs[..i + 1][..i] == xs[..i];
  }

  /** The last entry with a URI is at position i. */
  ghost predicate LastWithUri(xs: Extensions, uri: string, i: int) {
    0 <= i < |xs| && xs[i].uri == uri && forall j :: i < j < |xs| ==> xs[j].uri != uri
  }

  /** The id is that of the last entry with the URI, or 0 and there is none. */
  ghost predicate HasId(xs: Extensions, uri: string, id: int) {
    || (exists i :: LastWithUri(xs, uri, i) && xs[i].id == id)
    || (id == 0 && forall i :: 0 <= i < |xs| ==> xs[i].uri != uri)
  }

  lemma {:induction false} LastIdByPosition(xs: Extensions, uri: string)
    ensures HasId(xs, uri, LastId(xs, uri))
  {
    if xs != [] {
      var n := |xs| - 1;
      if xs[n].uri == uri {
        assert LastWithUri(xs, uri, n);
      } else {
        var before := xs[..n];
        LastIdByPosition(before, uri);
        if i :| LastWithUri(before, uri, i) && before[i].id == LastId(before, uri) {
          assert LastWithUri(xs, uri, i);
        }
      }
    }
  }

  lemma IdIsUnique(xs: Extensions, uri: string, id: int)
    requires HasId(xs, uri, id)
    ensures id == LastId(xs, uri)
  {
    LastIdByPosition(xs, uri);
    if i, j :| LastWithUri(xs, uri, i) && xs[i].id == id && LastWithUri(xs, uri, j) && xs[j].id == LastId(xs, uri) {
      assert i == j;
    }
  }

  /** Each of the seven ids is that of the last entry with its URI, 0 if there is none. */
  ghost predicate IdsOfLast(xs: Extensions, ids: ExtensionIds) {
    && HasId(xs, AUDIO_LEVEL_URI, ids.audioLevel)
    && HasId(xs, ABS_SEND_TIME_URI, ids.absSendTime)
    && HasId(xs, ABS_CAPTURE_TIME_URI, ids.absCaptureTime)
    && HasId(xs, TRANSPORT_SEQUENCE_NUMBER_URI, ids.transportSequenceNumber)
    && HasId(xs, MID_URI, ids.mid)
    && HasId(xs, RID_URI, ids.rid)
    && HasId(xs, REPAIRED_RID_URI, ids.repairedRid)
  }

  lemma IdsByPosition(xs: Extensions)
    ensures IdsOfLast(xs, IdsOf(xs))
  {
    hide HasId;
    LastIdByPosition(xs, AUDIO_LEVEL_URI);
    LastIdByPosition(xs, ABS_SEND_TIME_URI);
    LastIdByPosition(xs, ABS_CAPTURE_TIME_URI);
    LastIdByPosition(xs, TRANSPORT_SEQUENCE_NUMBER_URI);
    LastIdByPosition(xs, MID_URI);
    LastIdByPosition(xs, RID_URI);
    LastIdByPosition(xs, REPAIRED_RID_URI);
  }

  lemma UrisDiffer()
    ensures |AUDIO_LEVEL_URI| == 43 && |ABS_SEND_TIME_URI| == 58 && |ABS_CAPTURE_TIME_URI| == 61
    ensures |TRANSPORT_SEQUENCE_NUMBER_URI| == 73 && |MID_URI| == 35 && |RID_URI| == 45
    ensures |REPAIRED_RID_URI| == 54
  {
  }

  /** AudioSendStream::FindExtensionIds: one pass, later entries overwrite earlier ones. */
  method FindExtensionIds(extensions: Extensions) returns (ids: ExtensionIds)
    ensures ids == IdsOf(extensions) && IdsOfLast(extensions, ids)
  {
    hide IdsOfLast;
    IdsByPosition(extensions);
    ids := ExtensionIds(0, 0, 0, 0, 0, 0, 0);
    assert extensions[..0] == [];
    for i := 0 to |extensions|
      invariant ids == IdsOf(extensions[..i])
    {
      var uri, id := extensions[i].uri, extensions[i].id;
      LastIdStep(extensions, i, AUDIO_LEVEL_URI);
      LastIdStep(extensions, i, ABS_SEND_TIME_URI);
      LastIdStep(extensions, i, ABS_CAPTURE_TIME_URI);
      LastIdStep(extensions, i, TRANSPORT_SEQUENCE_NUMBER_URI);
      LastIdStep(extensions, i, MID_URI);
      LastIdStep(extensions, i, RID_URI);
      LastIdStep(extensions, i, REPAIRED_RID_URI);
      UrisDiffer();
      if uri == AUDIO_LEVEL_URI {
        ids := ids.(audioLevel := id);
      } else if uri == ABS_SEND_TIME_URI {
        ids := ids.(absSendTime := id);
      } else if uri == TRANSPORT_SEQUENCE_NUMBER_URI {
        ids := ids.(transportSequenceNumber := id);
      } else if uri == MID_URI {
        ids := ids.(mid := id);
      } else if uri == RID_URI {
        ids := ids.(rid := id);
      } else if uri == REPAIRED_RID_URI {
        ids := ids.(repairedRid := id);
      } else if uri == ABS_CAPTURE_TIME_URI {
        ids := ids.(absCaptureTime := id);
      }
    }
    assert extensions[..|extensions|] == extensions;
  }

  lemma {:induction false} LastIdOfUnique(xs: Extensions, uri: string)
    requires UniqueUris(xs)
    ensures forall e :: e in xs && e.uri == uri ==> LastId(xs, uri) == e.id
    ensures (forall e :: e in xs ==> e.uri != uri) ==> LastId(xs, uri) == 0
    decreases |xs|
  {
    if xs != [] {
      var n := |xs| - 1;
      LastIdOfUnique(xs[..n], uri);
      assert xs == xs[..n] + [xs[n]];
    }
  }

  /** On a deduplicated list the stream finds, for every URI, the id of the entry the filter
      selects from the original list, or 0 if it selects none. */
  lemma IdsOfDeduplicated(xs: Extensions, filter: Filter, out: Extensions, uri: string)
    requires Canonical(xs, filter, out)
    ensures LastId(out, uri) ==
            if Selected(xs, uri, filter).Some? then Selected(xs, uri, filter).value.id else 0
  {
    AscendingIsUnique(out);
    LastIdOfUnique(out, uri);
    SelectedIsMember(xs, uri, filter);
    var s := Selected(xs, uri, filter);
    if s.Some? {
      assert s.value in out;
    }
  }

  // ---------------------------------------------------------------------
  // The settings a configuration asks for
  // ---------------------------------------------------------------------

  datatype Settings = Settings(
    cName: string,
    frameEncryptor: Option<nat>,
    extmapAllowMixed: bool,
    includeAudioLevel: bool,
    audioLevelId: int,
    absSendTimeId: int,
    absCaptureTimeId: int)

  function SettingsOf(l: Links): Settings {
    Settings(l.cName, l.frameEncryptor, l.extmapAllowMixed, l.includeAudioLevel,
             IdOf(l.ids, AudioLevel), IdOf(l.ids, AbsSendTime), IdOf(l.ids, AbsCaptureTime))
  }

  function Wanted(c: Config): Settings {
    var n := IdsOf(c.extensions);
    Settings(Truncated(c.cName), c.frameEncryptor, c.extmapAllowMixed, n.audioLevel != 0,
             n.audioLevel, n.absSendTime, n.absCaptureTime)
  }

  /** Channel, module and log show exactly what the configuration asks for. */
  ghost predicate Settled(l: Links, c: Config) {
    SettingsOf(l) == Wanted(c) && l.log != [] && l.log[|l.log| - 1] == LogEntryOf(c)
  }

  /** The same, said on the configuration's own fields. */
  ghost predicate Shows(l: Links, c: Config) {
    && l.cName <= c.cName && |l.cName| == (if |c.cName| < 255 then |c.cName| else 255)
    && l.frameEncryptor == c.frameEncryptor && l.extmapAllowMixed == c.extmapAllowMixed
    && HasId(c.extensions, AUDIO_LEVEL_URI, IdOf(l.ids, AudioLevel))
    && (l.includeAudioLevel <==> AudioLevel in l.ids)
    && HasId(c.extensions, ABS_SEND_TIME_URI, IdOf(l.ids, AbsSendTime))
    && HasId(c.extensions, ABS_CAPTURE_TIME_URI, IdOf(l.ids, AbsCaptureTime))
    && l.log != [] && Describes(l.log[|l.log| - 1], c)
  }

  ghost predicate Describes(entry: LogEntry, c: Config) {
    && entry.ssrc == c.ssrc && entry.extensions == c.extensions
    && (entry.codec.Some? <==> c.sendCodecSpec.Some?)
    && (entry.codec.Some? ==>
          && entry.codec.value.0 == c.sendCodecSpec.value.format.name
          && entry.codec.value.1 == c.sendCodecSpec.value.payloadType)
  }

  lemma SettledShows(l: Links, c: Config)
    requires Settled(l, c) && WellRegistered(l.ids)
    ensures Shows(l, c)
  {
    hide HasId, LastId;
    LastIdByPosition(c.extensions, AUDIO_LEVEL_URI);
    LastIdByPosition(c.extensions, ABS_SEND_TIME_URI);
    LastIdByPosition(c.extensions, ABS_CAPTURE_TIME_URI);
  }

  lemma RegisterSets(ids: Registered, kind: ExtensionKind, id: int)
    requires Register(ids, kind, id).Running?
    ensures id != 0 && Register(ids, kind, id).value == ids[kind := id]
  {
    assert kind in ids && ids[kind] == id ==> ids[kind := id] == ids;
  }

  lemma LogSettles(l: Links, previous: Config, next: Config, first: bool)
    requires first || (l.log != [] && l.log[|l.log| - 1] == LogEntryOf(previous))
    ensures var r := UpdateEventLog(l, previous, next, first);
            r == l.(log := r.log) && r.log != [] && r.log[|r.log| - 1] == LogEntryOf(next)
  {
  }

  /** The links after each stage of a ConfigureStream call that passes. */
  lemma Stages(trials: Trials, l: Links, previous: Config, next: Config, first: bool)
    returns (channel: Links, a: Links, b: Links, c: Links, d: Links, e: Links)
    requires ConfigureLinks(trials, l, previous, next, first).Running?
    ensures var o, n := IdsOf(previous.extensions), IdsOf(next.extensions);
            && channel == ConfigureChannel(UpdateEventLog(l, previous, next, first), previous, next, first)
            && ConfigureAudioLevel(channel, o, n, first) == Running(a)
            && Reregister(a, AbsSendTime, o.absSendTime, n.absSendTime, first) == Running(b)
            && ConfigureFeedback(trials, b, o, n, first) == Running(c)
            && ConfigureMid(c, o, n, previous, next, first) == Running(d)
            && Reregister(d, AbsCaptureTime, o.absCaptureTime, n.absCaptureTime, first) == Running(e)
            && ConfigureLinks(trials, l, previous, next, first) == Running(e)
  {
    hide IdsOf, UpdateEventLog, ConfigureChannel, ConfigureAudioLevel, Reregister, ConfigureFeedback, ConfigureMid;
    var o, n := IdsOf(previous.extensions), IdsOf(next.extensions);
    channel := ConfigureChannel(UpdateEventLog(l, previous, next, first), previous, next, first);
    a := ConfigureAudioLevel(channel, o, n, first).value;
    b := Reregister(a, AbsSendTime, o.absSendTime, n.absSendTime, first).value;
    c := ConfigureFeedback(trials, b, o, n, first).value;
    d := ConfigureMid(c, o, n, previous, next, first).value;
    e := Reregister(d, AbsCaptureTime, o.absCaptureTime, n.absCaptureTime, first).value;
  }

  /** One ConfigureStream call, whatever it changes, leaves the links settled. */
  lemma ConfigureSettles(trials: Trials, l: Links, previous: Config, next: Config, first: bool)
    requires first || Settled(l, previous)
    requires ConfigureLinks(trials, l, previous, next, first).Running?
    ensures Settled(ConfigureLinks(trials, l, previous, next, first).value, next)
  {
    hide LastId, Truncated, LogEntryOf, UpdateEventLog, ConfigureLinks,
         ConfigureAudioLevel, Reregister, ConfigureFeedback, ConfigureMid;
    var o, n := IdsOf(previous.extensions), IdsOf(next.extensions);
    LogSettles(l, previous, next, first);
    var channel, a, b, c, d, e := Stages(trials, l, previous, next, first);
    AudioLevelSets(channel, o, n, first);
    ReregisterSets(a, AbsSendTime, o.absSendTime, n.absSendTime, first);
    FeedbackSets(trials, b, o, n, first);
    MidSets(c, o, n, previous, next, first);
    ReregisterSets(d, AbsCaptureTime, o.absCaptureTime, n.absCaptureTime, first);
  }

  lemma AudioLevelSets(l: Links, o: ExtensionIds, n: ExtensionIds, first: bool)
    requires ConfigureAudioLevel(l, o, n, first).Running?
    ensures var r := ConfigureAudioLevel(l, o, n, first).value;
            && r == l.(includeAudioLevel := r.includeAudioLevel, ids := r.ids)
            && (forall k :: k != AudioLevel ==> IdOf(r.ids, k) == IdOf(l.ids, k))
            && (first || n.audioLevel != o.audioLevel ==>
                  IdOf(r.ids, AudioLevel) == n.audioLevel && r.includeAudioLevel == (n.audioLevel != 0))
            && (!first && n.audioLevel == o.audioLevel ==> r == l)
  {
    if (first || n.audioLevel != o.audioLevel) && n.audioLevel != 0 {
      RegisterSets(l.ids, AudioLevel, n.audioLevel);
    }
  }

  lemma ReregisterSets(l: Links, kind: ExtensionKind, o: int, n: int, first: bool)
    requires Reregister(l, kind, o, n, first).Running?
    ensures var r := Reregister(l, kind, o, n, first).value;
            && r == l.(ids := r.ids)
            && (forall k :: k != kind ==> IdOf(r.ids, k) == IdOf(l.ids, k))
            && IdOf(r.ids, kind) == if first || n != o then n else IdOf(l.ids, kind)
  {
    if (first || n != o) && n != 0 {
      RegisterSets(l.ids - {kind}, kind, n);
    }
  }

  lemma FeedbackSets(trials: Trials, l: Links, o: ExtensionIds, n: ExtensionIds, first: bool)
    requires ConfigureFeedback(trials, l, o, n, first).Running?
    ensures var r := ConfigureFeedback(trials, l, o, n, first).value;
            && r == l.(ids := r.ids, congestionCalls := r.congestionCalls)
            && (forall k :: k != TransportSequenceNumber ==> IdOf(r.ids, k) == IdOf(l.ids, k))
            && IdOf(r.ids, TransportSequenceNumber) ==
               if !trials.allocateAudioWithoutFeedback && n.transportSequenceNumber != 0
                  && (first || n.transportSequenceNumber != o.transportSequenceNumber)
               then n.transportSequenceNumber else IdOf(l.ids, TransportSequenceNumber)
  {
    if (first || n.transportSequenceNumber != o.transportSequenceNumber)
       && !trials.allocateAudioWithoutFeedback && n.transportSequenceNumber != 0 {
      RegisterSets(l.ids, TransportSequenceNumber, n.transportSequenceNumber);
    }
  }

  predicate MidIsSet(o: ExtensionIds, n: ExtensionIds, previous: Config, next: Config, first: bool) {
    (first || n.mid != o.mid || next.mid != previous.mid) && n.mid != 0 && next.mid != ""
  }

  lemma MidSets(l: Links, o: ExtensionIds, n: ExtensionIds, previous: Config, next: Config, first: bool)
    requires ConfigureMid(l, o, n, previous, next, first).Running?
    ensures var r := ConfigureMid(l, o, n, previous, next, first).value;
            && r == l.(ids := r.ids, mid := if MidIsSet(o, n, previous, next, first) then next.mid else l.mid)
            && (forall k :: k != Mid ==> IdOf(r.ids, k) == IdOf(l.ids, k))
            && IdOf(r.ids, Mid) == if MidIsSet(o, n, previous, next, first) then n.mid else IdOf(l.ids, Mid)
  {
    if MidIsSet(o, n, previous, next, first) {
      RegisterSets(l.ids, Mid, n.mid);
    }
  }

  lemma {:induction false} RunSettled(trials: Trials, c: Config, env: Surroundings, ops: seq<Op>)
    requires Run(trials, c, env, ops).Running?
    ensures var s := Run(trials, c, env, ops).value; Settled(s.links, s.config)
    decreases |ops|
  {
    hide ConfigureLinks, Settled, ReconfigureSendCodec, UpdateOverhead, ReconfigureBitrateObserver, PollCodec, TellRate;
    if ops == [] {
      ConfigureSettles(trials, NEW_LINKS, DEFAULT_CONFIG, c, true);
    } else {
      var before, op := Run(trials, c, env, ops[..|ops| - 1]).value, ops[|ops| - 1];
      RunSettled(trials, c, env, ops[..|ops| - 1]);
      StepKeepsLinks(before, op);
      if op.OpReconfigure? {
        ConfigureSettles(before.trials, before.links, before.config, op.config, false);
      }
    }
  }

  /** Only reconfiguring touches the settings and the configuration. */
  lemma StepKeepsLinks(s: Stream, op: Op)
    requires Step(s, op).Running?
    ensures op.OpReconfigure? ==>
              && ConfigureLinks(s.trials, s.links, s.config, op.config, false) == Running(Step(s, op).value.links)
              && Step(s, op).value.config == op.config
    ensures !op.OpReconfigure? ==>
              Step(s, op).value.links == s.links && Step(s, op).value.config == s.config
    ensures Step(s, op).value.trials == s.trials
  {
    hide ConfigureLinks, ReconfigureSendCodec, UpdateOverhead, ReconfigureBitrateObserver, PollCodec, TellRate;
  }

  /** Incremental equals from scratch: after any run, the settings and the last log entry are
      those a stream first configured with the current configuration has. */
  lemma IncrementalEqualsFromScratch(trials: Trials, c: Config, env: Surroundings, ops: seq<Op>,
                                     trials': Trials, env': Surroundings)
    requires Run(trials, c, env, ops).Running?
    requires Construct(trials', Run(trials, c, env, ops).value.config, env').Running?
    ensures var s := Run(trials, c, env, ops).value;
            var anew := Construct(trials', s.config, env').value;
            && SettingsOf(s.links) == SettingsOf(anew.links)
            && s.links.log != [] && anew.links.log != []
            && s.links.log[|s.links.log| - 1] == anew.links.log[|anew.links.log| - 1]
  {
    hide Run, Construct;
    RunSettled(trials, c, env, ops);
    var s := Run(trials, c, env, ops).value;
    FreshSettles(trials', s.config, env');
  }

  lemma FreshSettles(trials: Trials, c: Config, env: Surroundings)
    requires Construct(trials, c, env).Running?
    ensures Settled(Construct(trials, c, env).value.links, c)
  {
    hide ConfigureLinks, Settled, ReconfigureSendCodec, UpdateOverhead, ReconfigureBitrateObserver, PollCodec, TellRate;
    ConfigureSettles(trials, NEW_LINKS, DEFAULT_CONFIG, c, true);
  }

  // ---------------------------------------------------------------------
  // Transport sequence number and MID
  // ---------------------------------------------------------------------

  /** These two are registered and never deregistered, so only what is switched on can be
      relied upon. */
  ghost predicate SwitchedOn(trials: Trials, l: Links, c: Config) {
    var n := IdsOf(c.extensions);
    && (!trials.allocateAudioWithoutFeedback && n.transportSequenceNumber != 0 ==>
          IdOf(l.ids, TransportSequenceNumber) == n.transportSequenceNumber)
    && (n.mid != 0 && c.mid != "" ==> IdOf(l.ids, Mid) == n.mid && l.mid == c.mid)
  }

  /** The same, said on the configuration's own fields. */
  ghost predicate UsesShow(trials: Trials, l: Links, c: Config) {
    && (forall t :: HasId(c.extensions, TRANSPORT_SEQUENCE_NUMBER_URI, t) && t != 0
                    && !trials.allocateAudioWithoutFeedback ==>
          TransportSequenceNumber in l.ids && l.ids[TransportSequenceNumber] == t)
    && (forall m :: HasId(c.extensions, MID_URI, m) && m != 0 && c.mid != "" ==>
          Mid in l.ids && l.ids[Mid] == m && l.mid == c.mid)
  }

  lemma SwitchedOnShows(trials: Trials, l: Links, c: Config)
    requires SwitchedOn(trials, l, c)
    ensures UsesShow(trials, l, c)
  {
    hide HasId, LastId;
    forall t | HasId(c.extensions, TRANSPORT_SEQUENCE_NUMBER_URI, t)
      ensures t == LastId(c.extensions, TRANSPORT_SEQUENCE_NUMBER_URI)
    {
      IdIsUnique(c.extensions, TRANSPORT_SEQUENCE_NUMBER_URI, t);
    }
    forall m | HasId(c.extensions, MID_URI, m)
      ensures m == LastId(c.extensions, MID_URI)
    {
      IdIsUnique(c.extensions, MID_URI, m);
    }
  }

  lemma ConfigureSwitchesOn(trials: Trials, l: Links, previous: Config, next: Config, first: bool)
    requires first || SwitchedOn(trials, l, previous)
    requires ConfigureLinks(trials, l, previous, next, first).Running?
    ensures SwitchedOn(trials, ConfigureLinks(trials, l, previous, next, first).value, next)
  {
    hide LastId, Truncated, LogEntryOf, ConfigureLinks,
         ConfigureAudioLevel, Reregister, ConfigureFeedback, ConfigureMid;
    var o, n := IdsOf(previous.extensions), IdsOf(next.extensions);
    var channel, a, b, c, d, e := Stages(trials, l, previous, next, first);
    AudioLevelSets(channel, o, n, first);
    ReregisterSets(a, AbsSendTime, o.absSendTime, n.absSendTime, first);
    FeedbackSets(trials, b, o, n, first);
    MidSets(c, o, n, previous, next, first);
    ReregisterSets(d, AbsCaptureTime, o.absCaptureTime, n.absCaptureTime, first);
  }

  /** In every state of every run, transport sequence numbers and MID are registered under
      the ids the current configuration gives them, if it uses them. */
  lemma {:induction false} RunSwitchesOn(trials: Trials, c: Config, env: Surroundings, ops: seq<Op>)
    requires Run(trials, c, env, ops).Running?
    ensures var s := Run(trials, c, env, ops).value;
            && s.trials == trials
            && SwitchedOn(trials, s.links, s.config) && UsesShow(trials, s.links, s.config)
    decreases |ops|
  {
    hide ConfigureLinks, SwitchedOn, UsesShow, ConfigureCodecAndRates, UpdateOverhead, PollCodec, TellRate;
    if ops == [] {
      ConfigureSwitchesOn(trials, NEW_LINKS, DEFAULT_CONFIG, c, true);
    } else {
      var before, op := Run(trials, c, env, ops[..|ops| - 1]).value, ops[|ops| - 1];
      RunSwitchesOn(trials, c, env, ops[..|ops| - 1]);
      StepKeepsLinks(before, op);
      if op.OpReconfigure? {
        ConfigureSwitchesOn(before.trials, before.links, before.config, op.config, false);
      }
    }
    var s := Run(trials, c, env, ops).value;
    SwitchedOnShows(trials, s.links, s.config);
  }

  // ---------------------------------------------------------------------
  // Frame transformer
  // ---------------------------------------------------------------------

  /** The configurations of a run, in order. */
  function Configs(c: Config, ops: seq<Op>): seq<Config> {
    if ops == [] then [c]
    else
      var op := ops[|ops| - 1];
      Configs(c, ops[..|ops| - 1]) + if op.OpReconfigure? then [op.config] else []
  }

  function LastTransformer(cs: seq<Config>): Option<nat> {
    if cs == [] then None
    else if cs[|cs| - 1].frameTransformer.Some? then cs[|cs| - 1].frameTransformer
    else LastTransformer(cs[..|cs| - 1])
  }

  lemma TransformerSets(trials: Trials, l: Links, previous: Config, next: Config, first: bool)
    requires ConfigureLinks(trials, l, previous, next, first).Running?
    ensures ConfigureLinks(trials, l, previous, next, first).value.frameTransformer ==
            if (first || next.frameTransformer != previous.frameTransformer) && next.frameTransformer.Some?
            then next.frameTransformer else l.frameTransformer
  {
    hide IdsOf, Truncated, LogEntryOf, IdOf, ConfigureLinks,
         ConfigureAudioLevel, Reregister, ConfigureFeedback, ConfigureMid;
    var o, n := IdsOf(previous.extensions), IdsOf(next.extensions);
    var channel, a, b, c, d, e := Stages(trials, l, previous, next, first);
    AudioLevelSets(channel, o, n, first);
    ReregisterSets(a, AbsSendTime, o.absSendTime, n.absSendTime, first);
    FeedbackSets(trials, b, o, n, first);
    MidSets(c, o, n, previous, next, first);
    ReregisterSets(d, AbsCaptureTime, o.absCaptureTime, n.absCaptureTime, first);
  }

  /** The channel keeps the last transformer that was ever set. */
  lemma {:induction false} TransformerIsLastSet(trials: Trials, c: Config, env: Surroundings, ops: seq<Op>)
    requires Run(trials, c, env, ops).Running?
    ensures var s, cs := Run(trials, c, env, ops).value, Configs(c, ops);
            cs != [] && cs[|cs| - 1] == s.config && s.links.frameTransformer == LastTransformer(cs)
    decreases |ops|
  {
    hide ConfigureLinks, ReconfigureSendCodec, UpdateOverhead, ReconfigureBitrateObserver, PollCodec, TellRate;
    if ops == [] {
      TransformerSets(trials, NEW_LINKS, DEFAULT_CONFIG, c, true);
      assert [c][..0] == [];
    } else {
      var before, op := Run(trials, c, env, ops[..|ops| - 1]).value, ops[|ops| - 1];
      var cs := Configs(c, ops[..|ops| - 1]);
      TransformerIsLastSet(trials, c, env, ops[..|ops| - 1]);
      StepKeepsLinks(before, op);
      if op.OpReconfigure? {
        TransformerSets(before.trials, before.links, before.config, op.config, false);
        assert (cs + [op.config])[..|cs|] == cs;
      } else {
        assert cs + [] == cs;
      }
    }
  }

  lemma {:induction false} NoTransformer(cs: seq<Config>)
    ensures LastTransformer(cs).None? <==> forall i :: 0 <= i < |cs| ==> cs[i].frameTransformer.None?
  {
    if cs != [] {
      NoTransformer(cs[..|cs| - 1]);
    }
  }

  /** The transformer is the one from-scratch configuration would set if and only if the
      current configuration has one or no earlier configuration had one: taking a
      transformer away has no effect. */
  lemma TransformerFromScratchIff(trials: Trials, c: Config, env: Surroundings, ops: seq<Op>)
    requires Run(trials, c, env, ops).Running?
    ensures var s, cs := Run(trials, c, env, ops).value, Configs(c, ops);
            s.links.frameTransformer == s.config.frameTransformer <==>
            s.config.frameTransformer.Some? || forall i :: 0 <= i < |cs| ==> cs[i].frameTransformer.None?
  {
    hide Run;
    TransformerIsLastSet(trials, c, env, ops);
    NoTransformer(Configs(c, ops));
  }

  // ---------------------------------------------------------------------
  // When a reconfiguration is refused
  // ---------------------------------------------------------------------

  /** Registered ids are in range and no two extensions share one. */
  ghost predicate WellRegistered(ids: Registered) {
    && (forall k :: k in ids ==> 1 <= ids[k] <= 255)
    && (forall k, k' :: k in ids && k' in ids && ids[k] == ids[k'] ==> k == k')
  }

  /** An id that may be given out: in range and not one of those in use. */
  predicate Free(id: int, used: seq<int>) {
    1 <= id <= 255 && id !in used
  }

  /** The ids the other extensions are registered under. */
  function Others(ids: Registered, kind: ExtensionKind): seq<int> {
    var a, s, t, m, c := IdOf(ids, AudioLevel), IdOf(ids, AbsSendTime), IdOf(ids, TransportSequenceNumber),
                         IdOf(ids, Mid), IdOf(ids, AbsCaptureTime);
    match kind
    case AudioLevel => [s, t, m, c]
    case AbsSendTime => [a, t, m, c]
    case TransportSequenceNumber => [a, s, m, c]
    case Mid => [a, s, t, c]
    case AbsCaptureTime => [a, s, t, m]
  }

  lemma InUse(ids: Registered, kind: ExtensionKind, id: int)
    requires WellRegistered(ids) && id != 0
    ensures id in ids.Values <==> IdOf(ids, kind) == id || id in Others(ids, kind)
  {
    if k :| k in ids && ids[k] == id {
      assert IdOf(ids, k) == id;
    }
  }

  /** Registering succeeds if and only if the pair is there already, or the extension is not
      registered and the id is free. */
  lemma RegisterIff(ids: Registered, kind: ExtensionKind, id: int)
    requires WellRegistered(ids) && id != 0
    ensures Register(ids, kind, id).Running? <==>
            IdOf(ids, kind) == id || (IdOf(ids, kind) == 0 && Free(id, Others(ids, kind)))
    ensures Register(ids, kind, id).Running? ==> WellRegistered(Register(ids, kind, id).value)
  {
    InUse(ids, kind, id);
    if Register(ids, kind, id).Running? {
      RegisterSets(ids, kind, id);
    }
  }

  /** A transport sequence number id is registered. */
  predicate FeedbackIsSet(trials: Trials, o: ExtensionIds, n: ExtensionIds) {
    && !trials.allocateAudioWithoutFeedback && n.transportSequenceNumber != 0
    && n.transportSequenceNumber != o.transportSequenceNumber
  }

  /** The condition, on ids alone: o and n are the ids of the old and new configuration, t and
      m the ids under which transport sequence number and MID have been registered so far. */
  predicate Renumberable(trials: Trials, o: ExtensionIds, n: ExtensionIds, t: int, m: int, setsMid: bool) {
    var setsT := FeedbackIsSet(trials, o, n);
    var t', m' := if setsT then n.transportSequenceNumber else t, if setsMid then n.mid else m;
    && (n.audioLevel in [0, o.audioLevel]
        || (o.audioLevel == 0 && Free(n.audioLevel, [o.absSendTime, t, m, o.absCaptureTime])))
    && (n.absSendTime in [0, o.absSendTime]
        || Free(n.absSendTime, [n.audioLevel, t, m, o.absCaptureTime]))
    && (!setsT || t == n.transportSequenceNumber
        || (t == 0 && Free(n.transportSequenceNumber, [n.audioLevel, n.absSendTime, m, o.absCaptureTime])))
    && (!setsMid || m == n.mid
        || (m == 0 && Free(n.mid, [n.audioLevel, n.absSendTime, t', o.absCaptureTime])))
    && (n.absCaptureTime in [0, o.absCaptureTime]
        || Free(n.absCaptureTime, [n.audioLevel, n.absSendTime, t', m']))
  }

  ghost predicate Mirrors(ids: Registered, o: ExtensionIds) {
    && WellRegistered(ids)
    && IdOf(ids, AudioLevel) == o.audioLevel
    && IdOf(ids, AbsSendTime) == o.absSendTime
    && IdOf(ids, AbsCaptureTime) == o.absCaptureTime
  }

  const NO_IDS := ExtensionIds(0, 0, 0, 0, 0, 0, 0)

  /** The ids a ConfigureStream call compares with: none the first time. */
  function OldIds(previous: Config, first: bool): ExtensionIds {
    if first then NO_IDS else IdsOf(previous.extensions)
  }

  /** `o` and `was` are the ids of the old configuration, but `was` is 0 the first time. */
  lemma AudioLevelIff(l: Links, o: ExtensionIds, n: ExtensionIds, first: bool, was: int)
    requires WellRegistered(l.ids) && IdOf(l.ids, AudioLevel) == was && was == (if first then 0 else o.audioLevel)
    ensures ConfigureAudioLevel(l, o, n, first).Running? <==>
            n.audioLevel in [0, was] || (was == 0 && Free(n.audioLevel, Others(l.ids, AudioLevel)))
    ensures ConfigureAudioLevel(l, o, n, first).Running? ==>
              WellRegistered(ConfigureAudioLevel(l, o, n, first).value.ids)
  {
    if n.audioLevel != 0 {
      RegisterIff(l.ids, AudioLevel, n.audioLevel);
    }
  }

  lemma OthersStay(ids: Registered, kind: ExtensionKind)
    ensures Others(ids - {kind}, kind) == Others(ids, kind) && IdOf(ids - {kind}, kind) == 0
  {
  }

  lemma ReregisterIff(l: Links, kind: ExtensionKind, o: int, n: int, first: bool, was: int)
    requires WellRegistered(l.ids) && IdOf(l.ids, kind) == was && was == (if first then 0 else o)
    ensures Reregister(l, kind, o, n, first).Running? <==> n in [0, was] || Free(n, Others(l.ids, kind))
    ensures Reregister(l, kind, o, n, first).Running? ==>
              WellRegistered(Reregister(l, kind, o, n, first).value.ids)
  {
    hide WellRegistered, Register, Free, Others, IdOf;
    RemoveKeeps(l.ids, kind);
    OthersStay(l.ids, kind);
    if n != 0 {
      RegisterIff(l.ids - {kind}, kind, n);
    }
  }

  lemma FeedbackIff(trials: Trials, l: Links, o: ExtensionIds, n: ExtensionIds, first: bool, was: int)
    requires WellRegistered(l.ids) && was == (if first then 0 else o.transportSequenceNumber)
    ensures var t, t' := IdOf(l.ids, TransportSequenceNumber), n.transportSequenceNumber;
            ConfigureFeedback(trials, l, o, n, first).Running? <==>
            || trials.allocateAudioWithoutFeedback
            || t' in [0, was, t]
            || (t == 0 && Free(t', Others(l.ids, TransportSequenceNumber)))
    ensures ConfigureFeedback(trials, l, o, n, first).Running? ==>
              WellRegistered(ConfigureFeedback(trials, l, o, n, first).value.ids)
  {
    if n.transportSequenceNumber != 0 {
      RegisterIff(l.ids, TransportSequenceNumber, n.transportSequenceNumber);
    }
  }

  lemma MidIff(l: Links, o: ExtensionIds, n: ExtensionIds, previous: Config, next: Config, first: bool)
    requires WellRegistered(l.ids)
    ensures ConfigureMid(l, o, n, previous, next, first).Running? <==>
            || !MidIsSet(o, n, previous, next, first)
            || n.mid == IdOf(l.ids, Mid)
            || (IdOf(l.ids, Mid) == 0 && Free(n.mid, Others(l.ids, Mid)))
    ensures ConfigureMid(l, o, n, previous, next, first).Running? ==>
              WellRegistered(ConfigureMid(l, o, n, previous, next, first).value.ids)
  {
    if n.mid != 0 {
      RegisterIff(l.ids, Mid, n.mid);
    }
  }

  lemma LogKeepsIds(l: Links, previous: Config, next: Config, first: bool)
    ensures UpdateEventLog(l, previous, next, first).ids == l.ids
  {
  }

  /** A configuration, the first or a later one, passes the RTP module's checks exactly when
      the ids allow it.  In particular an audio level id, a transport sequence number id or
      a MID id once in use cannot be changed to another one. */
  lemma AcceptedIff(trials: Trials, l: Links, previous: Config, next: Config, first: bool)
    requires Mirrors(l.ids, OldIds(previous, first))
    ensures var was, n := OldIds(previous, first), IdsOf(next.extensions);
            var t, m := IdOf(l.ids, TransportSequenceNumber), IdOf(l.ids, Mid);
            var setsMid := MidIsSet(IdsOf(previous.extensions), n, previous, next, first);
            ConfigureLinks(trials, l, previous, next, first).Running? <==>
            Renumberable(trials, was, n, t, m, setsMid)
  {
    hide IdsOf, Truncated, LogEntryOf, UpdateEventLog, WellRegistered, IdOf,
         ConfigureAudioLevel, Reregister, ConfigureFeedback, ConfigureMid;
    var o, n, was := IdsOf(previous.extensions), IdsOf(next.extensions), OldIds(previous, first);
    var channel := ConfigureChannel(UpdateEventLog(l, previous, next, first), previous, next, first);
    LogKeepsIds(l, previous, next, first);
    AudioLevelIff(channel, o, n, first, was.audioLevel);
    var ra := ConfigureAudioLevel(channel, o, n, first);
    if ra.Running? {
      AudioLevelSets(channel, o, n, first);
      ReregisterIff(ra.value, AbsSendTime, o.absSendTime, n.absSendTime, first, was.absSendTime);
      var rb := Reregister(ra.value, AbsSendTime, o.absSendTime, n.absSendTime, first);
      if rb.Running? {
        ReregisterSets(ra.value, AbsSendTime, o.absSendTime, n.absSendTime, first);
        FeedbackIff(trials, rb.value, o, n, first, was.transportSequenceNumber);
        var rc := ConfigureFeedback(trials, rb.value, o, n, first);
        if rc.Running? {
          FeedbackSets(trials, rb.value, o, n, first);
          MidIff(rc.value, o, n, previous, next, first);
          var rd := ConfigureMid(rc.value, o, n, previous, next, first);
          if rd.Running? {
            MidSets(rc.value, o, n, previous, next, first);
            ReregisterIff(rd.value, AbsCaptureTime, o.absCaptureTime, n.absCaptureTime, first, was.absCaptureTime);
          }
        }
      }
    }
  }

  lemma RegisterKeeps(ids: Registered, kind: ExtensionKind, id: int)
    requires WellRegistered(ids) && Register(ids, kind, id).Running?
    ensures WellRegistered(Register(ids, kind, id).value)
  {
    RegisterSets(ids, kind, id);
  }

  lemma RemoveKeeps(ids: Registered, kind: ExtensionKind)
    requires WellRegistered(ids)
    ensures WellRegistered(ids - {kind})
  {
  }

  lemma AudioLevelKeeps(l: Links, o: ExtensionIds, n: ExtensionIds, first: bool)
    requires WellRegistered(l.ids) && ConfigureAudioLevel(l, o, n, first).Running?
    ensures WellRegistered(ConfigureAudioLevel(l, o, n, first).value.ids)
  {
    hide WellRegistered, Register;
    RemoveKeeps(l.ids, AudioLevel);
    if Register(l.ids, AudioLevel, n.audioLevel).Running? {
      RegisterKeeps(l.ids, AudioLevel, n.audioLevel);
    }
  }

  lemma ReregisterKeeps(l: Links, kind: ExtensionKind, o: int, n: int, first: bool)
    requires WellRegistered(l.ids) && Reregister(l, kind, o, n, first).Running?
    ensures WellRegistered(Reregister(l, kind, o, n, first).value.ids)
  {
    hide WellRegistered, Register;
    RemoveKeeps(l.ids, kind);
    if Register(l.ids - {kind}, kind, n).Running? {
      RegisterKeeps(l.ids - {kind}, kind, n);
    }
  }

  lemma FeedbackKeeps(trials: Trials, l: Links, o: ExtensionIds, n: ExtensionIds, first: bool)
    requires WellRegistered(l.ids) && ConfigureFeedback(trials, l, o, n, first).Running?
    ensures WellRegistered(ConfigureFeedback(trials, l, o, n, first).value.ids)
  {
    hide WellRegistered, Register;
    if Register(l.ids, TransportSequenceNumber, n.transportSequenceNumber).Running? {
      RegisterKeeps(l.ids, TransportSequenceNumber, n.transportSequenceNumber);
    }
  }

  lemma MidKeeps(l: Links, o: ExtensionIds, n: ExtensionIds, previous: Config, next: Config, first: bool)
    requires WellRegistered(l.ids) && ConfigureMid(l, o, n, previous, next, first).Running?
    ensures WellRegistered(ConfigureMid(l, o, n, previous, next, first).value.ids)
  {
    hide WellRegistered, Register;
    if Register(l.ids, Mid, n.mid).Running? {
      RegisterKeeps(l.ids, Mid, n.mid);
    }
  }

  lemma ConfigureKeepsWellRegistered(trials: Trials, l: Links, previous: Config, next: Config, first: bool)
    requires WellRegistered(l.ids) && ConfigureLinks(trials, l, previous, next, first).Running?
    ensures WellRegistered(ConfigureLinks(trials, l, previous, next, first).value.ids)
  {
    hide IdsOf, LogEntryOf, WellRegistered, ConfigureLinks,
         ConfigureAudioLevel, Reregister, ConfigureFeedback, ConfigureMid;
    var o, n := IdsOf(previous.extensions), IdsOf(next.extensions);
    var channel, a, b, c, d, e := Stages(trials, l, previous, next, first);
    AudioLevelKeeps(channel, o, n, first);
    ReregisterKeeps(a, AbsSendTime, o.absSendTime, n.absSendTime, first);
    FeedbackKeeps(trials, b, o, n, first);
    MidKeeps(c, o, n, previous, next, first);
    ReregisterKeeps(d, AbsCaptureTime, o.absCaptureTime, n.absCaptureTime, first);
  }

  /** The ids registered after an accepted configuration. */
  lemma AcceptedIds(trials: Trials, l: Links, previous: Config, next: Config, first: bool)
    requires Mirrors(l.ids, OldIds(previous, first))
    requires ConfigureLinks(trials, l, previous, next, first).Running?
    ensures var was, n := OldIds(previous, first), IdsOf(next.extensions);
            var ids := ConfigureLinks(trials, l, previous, next, first).value.ids;
            && Mirrors(ids, n)
            && IdOf(ids, TransportSequenceNumber) ==
               (if FeedbackIsSet(trials, was, n) then n.transportSequenceNumber
                else IdOf(l.ids, TransportSequenceNumber))
            && IdOf(ids, Mid) ==
               (if MidIsSet(IdsOf(previous.extensions), n, previous, next, first) then n.mid else IdOf(l.ids, Mid))
  {
    hide IdsOf, Truncated, LogEntryOf, UpdateEventLog, WellRegistered, IdOf, MidIsSet, ConfigureLinks,
         ConfigureAudioLevel, Reregister, ConfigureFeedback, ConfigureMid;
    var o, n := IdsOf(previous.extensions), IdsOf(next.extensions);
    LogKeepsIds(l, previous, next, first);
    ConfigureKeepsWellRegistered(trials, l, previous, next, first);
    var channel, a, b, c, d, e := Stages(trials, l, previous, next, first);
    AudioLevelSets(channel, o, n, first);
    ReregisterSets(a, AbsSendTime, o.absSendTime, n.absSendTime, first);
    FeedbackSets(trials, b, o, n, first);
    MidSets(c, o, n, previous, next, first);
    ReregisterSets(d, AbsCaptureTime, o.absCaptureTime, n.absCaptureTime, first);
  }

  /** In every state of every run the registered ids are distinct, in range and, for the
      extensions that are deregistered again, those of the current configuration. */
  lemma {:induction false} RunMirrors(trials: Trials, c: Config, env: Surroundings, ops: seq<Op>)
    requires Run(trials, c, env, ops).Running?
    ensures var s := Run(trials, c, env, ops).value; Mirrors(s.links.ids, IdsOf(s.config.extensions))
    decreases |ops|
  {
    hide ConfigureLinks, ReconfigureSendCodec, UpdateOverhead, ReconfigureBitrateObserver, PollCodec, TellRate, IdsOf;
    RunSettled(trials, c, env, ops);
    if ops == [] {
      ConfigureKeepsWellRegistered(trials, NEW_LINKS, DEFAULT_CONFIG, c, true);
    } else {
      var before, op := Run(trials, c, env, ops[..|ops| - 1]).value, ops[|ops| - 1];
      RunMirrors(trials, c, env, ops[..|ops| - 1]);
      StepKeepsLinks(before, op);
      if op.OpReconfigure? {
        ConfigureKeepsWellRegistered(before.trials, before.links, before.config, op.config, false);
      }
    }
  }

  /** In every state of every run the settings are those the current configuration asks for. */
  lemma RunSettles(trials: Trials, c: Config, env: Surroundings, ops: seq<Op>)
    requires Run(trials, c, env, ops).Running?
    ensures var s := Run(trials, c, env, ops).value; Settled(s.links, s.config) && Shows(s.links, s.config)
  {
    hide Run, Settled, Shows, IdsOf;
    RunSettled(trials, c, env, ops);
    RunMirrors(trials, c, env, ops);
    SettledShows(Run(trials, c, env, ops).value.links, Run(trials, c, env, ops).value.config);
  }

  /** Whatever the run, giving the audio level extension another id is fatal. */
  lemma RenumberedAudioLevelCrashes(trials: Trials, c: Config, env: Surroundings, ops: seq<Op>,
                                    next: Config, env': Surroundings)
    requires Run(trials, c, env, ops).Running?
    requires var o := IdsOf(Run(trials, c, env, ops).value.config.extensions).audioLevel;
             o != 0 && IdsOf(next.extensions).audioLevel !in [0, o]
    ensures Step(Run(trials, c, env, ops).value, OpReconfigure(next, env')) == Crashed
  {
    hide Run, IdsOf, ConfigureLinks;
    RunMirrors(trials, c, env, ops);
    var s := Run(trials, c, env, ops).value;
    AcceptedIff(s.trials, s.links, s.config, next, false);
  }

  /** A configuration with nothing but the audio level extension. */
  function LevelConfig(id: int): Config {
    DEFAULT_CONFIG.(extensions := [RtpExtension(AUDIO_LEVEL_URI, id, false)])
  }

  lemma LevelConfigIds(id: int)
    ensures IdsOf(LevelConfig(id).extensions) == ExtensionIds(id, 0, 0, 0, 0, 0, 0)
  {
    UrisDiffer();
    var xs := LevelConfig(id).extensions;
    forall uri
      ensures LastId(xs, uri) == if uri == AUDIO_LEVEL_URI then id else 0
    {
      LastIdStep(xs, 0, uri);
      assert xs[..1] == xs && xs[..0] == [];
    }
    assert ABS_SEND_TIME_URI != AUDIO_LEVEL_URI && ABS_CAPTURE_TIME_URI != AUDIO_LEVEL_URI;
    assert TRANSPORT_SEQUENCE_NUMBER_URI != AUDIO_LEVEL_URI && MID_URI != AUDIO_LEVEL_URI;
    assert RID_URI != AUDIO_LEVEL_URI && REPAIRED_RID_URI != AUDIO_LEVEL_URI;
  }

  /** Ids 1 and 2 are both fine from scratch, but going from 1 to 2 is not. */
  lemma AudioLevelOneThenTwo(trials: Trials, env: Surroundings)
    ensures Construct(trials, LevelConfig(1), env).Running?
    ensures Construct(trials, LevelConfig(2), env).Running?
    ensures Run(trials, LevelConfig(1), env, [OpReconfigure(LevelConfig(2), env)]) == Crashed
  {
    LevelConfigConstructs(trials, 1, env);
    LevelConfigConstructs(trials, 2, env);
    LevelConfigIds(1);
    LevelConfigIds(2);
    var s := Construct(trials, LevelConfig(1), env).value;
    assert s == Run(trials, LevelConfig(1), env, []).value;
    assert s.config == LevelConfig(1);
    RenumberedAudioLevelCrashes(trials, LevelConfig(1), env, [], LevelConfig(2), env);
    assert [OpReconfigure(LevelConfig(2), env)][..0] == [];
  }

  lemma LevelConfigConstructs(trials: Trials, id: int, env: Surroundings)
    requires MIN_ID <= id <= MAX_ID
    ensures Construct(trials, LevelConfig(id), env).Running?
    ensures Construct(trials, LevelConfig(id), env).value.config == LevelConfig(id)
  {
    hide IdsOf, Truncated, LogEntryOf;
    LevelConfigIds(id);
  }

  // ---------------------------------------------------------------------
  // Runs that are never refused
  // ---------------------------------------------------------------------

  type Numbering = ExtensionKind -> int

  /** Distinct ids in range, one for each extension. */
  ghost predicate IsNumbering(f: Numbering) {
    && (forall k :: 1 <= f(k) <= 255)
    && (forall k, k' :: f(k) == f(k') ==> k == k')
  }

  ghost predicate Follows(f: Numbering, n: ExtensionIds) {
    && n.audioLevel in [0, f(AudioLevel)]
    && n.absSendTime in [0, f(AbsSendTime)]
    && n.transportSequenceNumber in [0, f(TransportSequenceNumber)]
    && n.mid in [0, f(Mid)]
    && n.absCaptureTime in [0, f(AbsCaptureTime)]
  }

  ghost predicate Numbered(f: Numbering, ids: Registered) {
    forall k :: k in ids ==> ids[k] == f(k)
  }

  lemma NumberedRegisters(f: Numbering, ids: Registered, kind: ExtensionKind)
    requires IsNumbering(f) && Numbered(f, ids)
    ensures Register(ids, kind, f(kind)).Running?
    ensures Numbered(f, Register(ids, kind, f(kind)).value)
  {
  }

  lemma NumberedRemoves(f: Numbering, ids: Registered, kind: ExtensionKind)
    requires Numbered(f, ids)
    ensures Numbered(f, ids - {kind})
  {
  }

  lemma NumberedAudioLevel(f: Numbering, l: Links, o: ExtensionIds, n: ExtensionIds, first: bool)
    requires IsNumbering(f) && Numbered(f, l.ids) && n.audioLevel in [0, f(AudioLevel)]
    ensures var r := ConfigureAudioLevel(l, o, n, first); r.Running? && Numbered(f, r.value.ids)
  {
    hide Numbered, Register;
    NumberedRemoves(f, l.ids, AudioLevel);
    NumberedRegisters(f, l.ids, AudioLevel);
  }

  lemma NumberedReregister(f: Numbering, l: Links, kind: ExtensionKind, o: int, n: int, first: bool)
    requires IsNumbering(f) && Numbered(f, l.ids) && n in [0, f(kind)]
    ensures var r := Reregister(l, kind, o, n, first); r.Running? && Numbered(f, r.value.ids)
  {
    hide Numbered, Register;
    NumberedRemoves(f, l.ids, kind);
    NumberedRegisters(f, l.ids - {kind}, kind);
  }

  lemma NumberedFeedback(f: Numbering, trials: Trials, l: Links, o: ExtensionIds, n: ExtensionIds, first: bool)
    requires IsNumbering(f) && Numbered(f, l.ids)
    requires n.transportSequenceNumber in [0, f(TransportSequenceNumber)]
    ensures var r := ConfigureFeedback(trials, l, o, n, first); r.Running? && Numbered(f, r.value.ids)
  {
    hide Numbered, Register;
    NumberedRegisters(f, l.ids, TransportSequenceNumber);
  }

  lemma NumberedMid(f: Numbering, l: Links, o: ExtensionIds, n: ExtensionIds, previous: Config, next: Config,
                    first: bool)
    requires IsNumbering(f) && Numbered(f, l.ids) && n.mid in [0, f(Mid)]
    ensures var r := ConfigureMid(l, o, n, previous, next, first); r.Running? && Numbered(f, r.value.ids)
  {
    hide Numbered, Register;
    NumberedRegisters(f, l.ids, Mid);
  }

  lemma FixedNumberingIsAccepted(f: Numbering, trials: Trials, l: Links, previous: Config, next: Config, first: bool)
    requires IsNumbering(f) && Numbered(f, l.ids) && Follows(f, IdsOf(next.extensions))
    ensures ConfigureLinks(trials, l, previous, next, first).Running?
    ensures Numbered(f, ConfigureLinks(trials, l, previous, next, first).value.ids)
  {
    hide IdsOf, LogEntryOf, Numbered, ConfigureAudioLevel, Reregister, ConfigureFeedback, ConfigureMid, IsNumbering;
    var o, n := IdsOf(previous.extensions), IdsOf(next.extensions);
    var channel := ConfigureChannel(UpdateEventLog(l, previous, next, first), previous, next, first);
    NumberedAudioLevel(f, channel, o, n, first);
    var a := ConfigureAudioLevel(channel, o, n, first).value;
    NumberedReregister(f, a, AbsSendTime, o.absSendTime, n.absSendTime, first);
    var b := Reregister(a, AbsSendTime, o.absSendTime, n.absSendTime, first).value;
    NumberedFeedback(f, trials, b, o, n, first);
    var c := ConfigureFeedback(trials, b, o, n, first).value;
    NumberedMid(f, c, o, n, previous, next, first);
    var d := ConfigureMid(c, o, n, previous, next, first).value;
    NumberedReregister(f, d, AbsCaptureTime, o.absCaptureTime, n.absCaptureTime, first);
  }

  /** The links after a sequence of configurations, the first of them the constructor's. */
  function LinksAfter(trials: Trials, cs: seq<Config>): Outcome<Links>
    requires cs != []
  {
    var n := |cs| - 1;
    if n == 0 then ConfigureLinks(trials, NEW_LINKS, DEFAULT_CONFIG, cs[0], true)
    else
      var before :- LinksAfter(trials, cs[..n]);
      ConfigureLinks(trials, before, cs[n - 1], cs[n], false)
  }

  /** The ids under which transport sequence number and MID stay registered after a sequence
      of configurations. */
  function Sticky(trials: Trials, cs: seq<Config>): (int, int) {
    if cs == [] then (0, 0)
    else
      var (t, m) := Sticky(trials, cs[..|cs| - 1]);
      var n := IdsOf(cs[|cs| - 1].extensions);
      (if FeedbackIsSet(trials, IdsBefore(cs), n) then n.transportSequenceNumber else t,
       if SetsMid(cs) then n.mid else m)
  }

  function IdsBefore(cs: seq<Config>): ExtensionIds
    requires cs != []
  {
    if |cs| == 1 then NO_IDS else IdsOf(cs[|cs| - 2].extensions)
  }

  predicate SetsMid(cs: seq<Config>)
    requires cs != []
  {
    var next := cs[|cs| - 1];
    var previous := if |cs| == 1 then DEFAULT_CONFIG else cs[|cs| - 2];
    MidIsSet(IdsOf(previous.extensions), IdsOf(next.extensions), previous, next, |cs| == 1)
  }

  /** Every configuration of the sequence can be numbered after those before it. */
  predicate Acceptable(trials: Trials, cs: seq<Config>) {
    cs != [] ==>
      var before := cs[..|cs| - 1];
      var (t, m) := Sticky(trials, before);
      && Acceptable(trials, before)
      && Renumberable(trials, IdsBefore(cs), IdsOf(cs[|cs| - 1].extensions), t, m, SetsMid(cs))
  }

  /** A sequence of configurations is accepted exactly when its ids allow it. */
  lemma {:induction false} SequenceAcceptedIff(trials: Trials, cs: seq<Config>)
    requires cs != []
    ensures LinksAfter(trials, cs).Running? <==> Acceptable(trials, cs)
    ensures LinksAfter(trials, cs).Running? ==>
              var ids := LinksAfter(trials, cs).value.ids;
              && Mirrors(ids, IdsOf(cs[|cs| - 1].extensions))
              && (IdOf(ids, TransportSequenceNumber), IdOf(ids, Mid)) == Sticky(trials, cs)
    decreases |cs|
  {
    hide ConfigureLinks, Mirrors, IdsOf, Renumberable, IdOf, FeedbackIsSet, MidIsSet;
    var n := |cs| - 1;
    if n == 0 {
      NothingMirrors();
      assert cs[..0] == [];
      AcceptedIff(trials, NEW_LINKS, DEFAULT_CONFIG, cs[0], true);
      if LinksAfter(trials, cs).Running? {
        AcceptedIds(trials, NEW_LINKS, DEFAULT_CONFIG, cs[0], true);
      }
    } else {
      SequenceAcceptedIff(trials, cs[..n]);
      if LinksAfter(trials, cs[..n]).Running? {
        AcceptedIff(trials, LinksAfter(trials, cs[..n]).value, cs[n - 1], cs[n], false);
        if LinksAfter(trials, cs).Running? {
          AcceptedIds(trials, LinksAfter(trials, cs[..n]).value, cs[n - 1], cs[n], false);
        }
      }
    }
  }

  lemma NothingMirrors()
    ensures Mirrors(NEW_LINKS.ids, NO_IDS)
    ensures IdOf(NEW_LINKS.ids, TransportSequenceNumber) == 0 && IdOf(NEW_LINKS.ids, Mid) == 0
  {
  }

  /** The settings after a run are those of its configurations, so no run gets past a
      configuration that is not acceptable. */
  lemma {:induction false} RunLinks(trials: Trials, c: Config, env: Surroundings, ops: seq<Op>)
    requires Run(trials, c, env, ops).Running?
    ensures var s, cs := Run(trials, c, env, ops).value, Configs(c, ops);
            && cs != [] && cs[|cs| - 1] == s.config && s.trials == trials
            && LinksAfter(trials, cs) == Running(s.links)
    ensures Acceptable(trials, Configs(c, ops))
    decreases |ops|
  {
    hide ConfigureLinks, ReconfigureSendCodec, UpdateOverhead, ReconfigureBitrateObserver, PollCodec, TellRate,
         Acceptable;
    if ops != [] {
      var before, op := ops[..|ops| - 1], ops[|ops| - 1];
      var cs := Configs(c, before);
      RunLinks(trials, c, env, before);
      StepKeepsLinks(Run(trials, c, env, before).value, op);
      assert (cs + [])[..] == cs;
      assert op.OpReconfigure? ==> (cs + [op.config])[..|cs|] == cs;
    }
    SequenceAcceptedIff(trials, Configs(c, ops));
  }

  lemma NothingNumbered(f: Numbering)
    ensures Numbered(f, map[])
  {
  }

  /** If every configuration numbers its extensions by one fixed scheme, no registration is
      ever refused, whatever is switched on and off and in whatever order. */
  lemma {:induction false} FixedNumberingNeverRefused(f: Numbering, trials: Trials, cs: seq<Config>)
    requires IsNumbering(f) && cs != []
    requires forall i :: 0 <= i < |cs| ==> Follows(f, IdsOf(cs[i].extensions))
    ensures LinksAfter(trials, cs).Running? && Numbered(f, LinksAfter(trials, cs).value.ids)
    decreases |cs|
  {
    hide ConfigureLinks, IsNumbering, Follows, IdsOf, Numbered;
    var n := |cs| - 1;
    assert Numbered(f, NEW_LINKS.ids) by {
      NothingNumbered(f);
    }
    if n == 0 {
      FixedNumberingIsAccepted(f, trials, NEW_LINKS, DEFAULT_CONFIG, cs[0], true);
    } else {
      FixedNumberingNeverRefused(f, trials, cs[..n]);
      FixedNumberingIsAccepted(f, trials, LinksAfter(trials, cs[..n]).value, cs[n - 1], cs[n], false);
    }
  }

  // ---------------------------------------------------------------------
  // Congestion control objects
  // ---------------------------------------------------------------------

  /** Register and reset strictly alternate, starting with register. */
  ghost predicate Alternates(calls: seq<CongestionCall>) {
    forall i :: 0 <= i < |calls| ==>
      calls[i] == if i % 2 == 0 then RegisterCongestionControl else ResetCongestionControl
  }

  /** ... and the objects are registered at the end. */
  ghost predicate CongestionRegistered(calls: seq<CongestionCall>) {
    Alternates(calls) && |calls| % 2 == 1
  }

  lemma FeedbackCalls(trials: Trials, l: Links, o: ExtensionIds, n: ExtensionIds, first: bool)
    requires ConfigureFeedback(trials, l, o, n, first).Running?
    ensures var calls := ConfigureFeedback(trials, l, o, n, first).value.congestionCalls;
            if first then calls == l.congestionCalls + [RegisterCongestionControl]
            else calls in [l.congestionCalls,
                           l.congestionCalls + [ResetCongestionControl] + [RegisterCongestionControl]]
  {
    assert l.congestionCalls + [] + [RegisterCongestionControl] == l.congestionCalls + [RegisterCongestionControl];
  }

  /** The first configuration registers; a later one resets and registers, or does neither. */
  lemma CongestionSets(trials: Trials, l: Links, previous: Config, next: Config, first: bool)
    requires ConfigureLinks(trials, l, previous, next, first).Running?
    ensures var calls := ConfigureLinks(trials, l, previous, next, first).value.congestionCalls;
            if first then calls == l.congestionCalls + [RegisterCongestionControl]
            else calls in [l.congestionCalls,
                           l.congestionCalls + [ResetCongestionControl] + [RegisterCongestionControl]]
  {
    hide IdsOf, Truncated, LogEntryOf, IdOf, ConfigureLinks,
         ConfigureAudioLevel, Reregister, ConfigureFeedback, ConfigureMid;
    var o, n := IdsOf(previous.extensions), IdsOf(next.extensions);
    var channel, a, b, c, d, e := Stages(trials, l, previous, next, first);
    AudioLevelSets(channel, o, n, first);
    ReregisterSets(a, AbsSendTime, o.absSendTime, n.absSendTime, first);
    FeedbackCalls(trials, b, o, n, first);
    MidSets(c, o, n, previous, next, first);
    ReregisterSets(d, AbsCaptureTime, o.absCaptureTime, n.absCaptureTime, first);
  }

  /** From the constructor to the destructor's reset, register and reset calls alternate. */
  lemma {:induction false} RunAlternates(trials: Trials, c: Config, env: Surroundings, ops: seq<Op>)
    requires Run(trials, c, env, ops).Running?
    ensures var calls := Run(trials, c, env, ops).value.links.congestionCalls;
            CongestionRegistered(calls) && Alternates(calls + [ResetCongestionControl])
    decreases |ops|
  {
    hide ConfigureLinks, ReconfigureSendCodec, UpdateOverhead, ReconfigureBitrateObserver, PollCodec, TellRate;
    if ops == [] {
      CongestionSets(trials, NEW_LINKS, DEFAULT_CONFIG, c, true);
    } else {
      var before, op := Run(trials, c, env, ops[..|ops| - 1]).value, ops[|ops| - 1];
      RunAlternates(trials, c, env, ops[..|ops| - 1]);
      StepKeepsLinks(before, op);
      if op.OpReconfigure? {
        CongestionSets(before.trials, before.links, before.config, op.config, false);
      }
    }
  }
  // ---------------------------------------------------------------------
  // How often
  // ---------------------------------------------------------------------

  /** How often the transport sequence number id changes in a sequence of configurations. */
  function FeedbackChanges(trials: Trials, cs: seq<Config>): nat {
    if |cs| <= 1 || trials.allocateAudioWithoutFeedback then 0
    else
      FeedbackChanges(trials, cs[..|cs| - 1]) +
      if TransportSeqNumId(cs[|cs| - 1]) != TransportSeqNumId(cs[|cs| - 2]) then 1 else 0
  }

  lemma FeedbackCallsIff(trials: Trials, l: Links, o: ExtensionIds, n: ExtensionIds)
    requires ConfigureFeedback(trials, l, o, n, false).Running?
    ensures var calls := ConfigureFeedback(trials, l, o, n, false).value.congestionCalls;
            |calls| == |l.congestionCalls| +
              if !trials.allocateAudioWithoutFeedback && n.transportSequenceNumber != o.transportSequenceNumber
              then 2 else 0
  {
  }

  lemma CongestionCallsIff(trials: Trials, l: Links, previous: Config, next: Config)
    requires ConfigureLinks(trials, l, previous, next, false).Running?
    ensures |ConfigureLinks(trials, l, previous, next, false).value.congestionCalls| ==
            |l.congestionCalls| +
              if !trials.allocateAudioWithoutFeedback && TransportSeqNumId(next) != TransportSeqNumId(previous)
              then 2 else 0
  {
    hide LastId, Truncated, LogEntryOf, IdOf, ConfigureLinks,
         ConfigureAudioLevel, Reregister, ConfigureFeedback, ConfigureMid;
    var o, n := IdsOf(previous.extensions), IdsOf(next.extensions);
    var channel, a, b, c, d, e := Stages(trials, l, previous, next, false);
    AudioLevelSets(channel, o, n, false);
    ReregisterSets(a, AbsSendTime, o.absSendTime, n.absSendTime, false);
    FeedbackCallsIff(trials, b, o, n);
    MidSets(c, o, n, previous, next, false);
    ReregisterSets(d, AbsCaptureTime, o.absCaptureTime, n.absCaptureTime, false);
  }

  /** The log of a sequence of configurations: one entry for the first, and one for each that
      calls for another entry than the one before. */
  function LogOf(cs: seq<Config>): seq<LogEntry> {
    if cs == [] then []
    else
      var log, next := LogOf(cs[..|cs| - 1]), cs[|cs| - 1];
      if |cs| > 1 && LogEntryOf(cs[|cs| - 2]) == LogEntryOf(next) then log else log + [LogEntryOf(next)]
  }

  lemma LogsIff(l: Links, previous: Config, next: Config)
    ensures UpdateEventLog(l, previous, next, false).log ==
            if LogEntryOf(previous) == LogEntryOf(next) then l.log else l.log + [LogEntryOf(next)]
  {
  }

  lemma ConfigureLogs(trials: Trials, l: Links, previous: Config, next: Config, first: bool)
    requires ConfigureLinks(trials, l, previous, next, first).Running?
    ensures ConfigureLinks(trials, l, previous, next, first).value.log ==
            UpdateEventLog(l, previous, next, first).log
  {
    hide IdsOf, Truncated, LogEntryOf, IdOf, UpdateEventLog, ConfigureLinks,
         ConfigureAudioLevel, Reregister, ConfigureFeedback, ConfigureMid;
    var o, n := IdsOf(previous.extensions), IdsOf(next.extensions);
    var channel, a, b, c, d, e := Stages(trials, l, previous, next, first);
    AudioLevelSets(channel, o, n, first);
    ReregisterSets(a, AbsSendTime, o.absSendTime, n.absSendTime, first);
    FeedbackSets(trials, b, o, n, first);
    MidSets(c, o, n, previous, next, first);
    ReregisterSets(d, AbsCaptureTime, o.absCaptureTime, n.absCaptureTime, first);
  }

  lemma {:induction false} SequenceLogs(trials: Trials, cs: seq<Config>)
    requires cs != [] && LinksAfter(trials, cs).Running?
    ensures LinksAfter(trials, cs).value.log == LogOf(cs)
    ensures |LinksAfter(trials, cs).value.congestionCalls| == 1 + 2 * FeedbackChanges(trials, cs)
    decreases |cs|
  {
    hide ConfigureLinks, LogEntryOf, TransportSeqNumId;
    var n := |cs| - 1;
    if n == 0 {
      ConfigureLogs(trials, NEW_LINKS, DEFAULT_CONFIG, cs[0], true);
      CongestionSets(trials, NEW_LINKS, DEFAULT_CONFIG, cs[0], true);
      assert cs[..0] == [];
    } else {
      var before := LinksAfter(trials, cs[..n]).value;
      SequenceLogs(trials, cs[..n]);
      ConfigureLogs(trials, before, cs[n - 1], cs[n], false);
      LogsIff(before, cs[n - 1], cs[n]);
      CongestionCallsIff(trials, before, cs[n - 1], cs[n]);
    }
  }

  /** The log of a run is that of its configurations, and congestion control is registered
      once and then reset and registered again exactly as often as the transport sequence
      number id changes. */
  lemma RunLogs(trials: Trials, c: Config, env: Surroundings, ops: seq<Op>)
    requires Run(trials, c, env, ops).Running?
    ensures var l := Run(trials, c, env, ops).value.links;
            && l.log == LogOf(Configs(c, ops))
            && |l.congestionCalls| == 1 + 2 * FeedbackChanges(trials, Configs(c, ops))
  {
    hide Run, LinksAfter, LogOf, FeedbackChanges;
    RunLinks(trials, c, env, ops);
    SequenceLogs(trials, Configs(c, ops));
  }
}
