# Verified models of the audio send path and its API types

A Dafny project that models parts of this WebRTC tree and proves what they keep over whole
runs: the audio send stream and the state it mirrors into its collaborators, reference
counting, the statistics collection, RTP header extension lists, the audio level meter, the
field trial parser, ICE candidate priorities and the capped event log sink.
`dafny verify dfyconfig.toml` checks it.

Code that changes state is modelled by classes whose methods make the same changes in the
same order, with contracts that give the new state; the properties are lemmas about the
values those contracts mention.

| file | models |
|---|---|
| `SendStreamModel.dfy` | the stream's operations as functions on values, with the code of the send channel, the RTP module's extension map and the wrapping encoders where it decides the effect |
| `SendStream.dfy` | the stream as an object, each method proved to have the effect of its function and to keep the object's state that of a run |
| `SendStreamSettings.dfy` | incremental configuration against configuration from scratch, refused registrations, congestion-control calls |
| `SendStreamEncoder.dfy` | the layers of the installed encoder, when the speech encoder is replaced, what reaches it |
| `SendStreamOverhead.dfy` | the per-packet overhead known to the speech encoder and to the channel |
| `SendStreamRates.dfy` | bitrate bounds, life cycle, the allocator's copy |
| `SendStreamSurvival.dfy` | when an operation stops the program and when it goes through |
| `SendStreamAdaptor.dfy` | the audio network adaptor the speech encoder runs |
| `SendStreamTarget.dfy` | the target bitrate the speech encoder was last given |
| `SendStreamExamples.dfy` | concrete runs in which a mirror fails |
| `RtpExtensions.dfy` | lookup and deduplication of header extensions |
| `RefCountProtocol.dfy` | AddRef and Release from several threads |
| `ScopedRefptr.dfy` | `scoped_refptr` operations on one thread |
| `StatsCollection.dfy` | report ids and the owning list of reports |
| `Basics.dfy` | types that several modules share |
| `AudioLevel.dfy`, `FieldTrials.dfy`, `IcePriority.dfy`, `EventLogOutput.dfy` | the meter, the parser, the priority, the sink |

A program that fails an RTC_CHECK, or reads an empty optional that RTC_DCHECK asserts to be
there, is `Crashed` in the stream model; in the parser it is a `Failure` naming the check.
Other RTC_DCHECKs are preconditions, as they are obligations of the caller, except for four
that the model does not impose, so that its runs include some the assertions forbid: that
`ssrc` stays the same (`audio/audio_send_stream.cc:224`), that a configured codec is not taken
away (`audio/audio_send_stream.cc:638`), that a channel has no frame transformer when it is given
one (`audio/channel_send.cc:935`), and that an event log is open when written to
(`api/rtc_event_log_output_file.cc:63`). What the model cannot see is a parameter: the encoder
factory's answer, the ranges an encoder reports, the overhead the RTP module expects, the
rates the bitrate allocator sends, whether a file accepts a write, addresses of new objects.

## What turned out not to hold

Seven mirrors of the send stream do not always hold. Each has a lemma with a concrete run
and a lemma with the exact condition.

- The extension ids. The RTP module aborts on registering an extension under a second id
  (`modules/rtp_rtcp/source/rtp_header_extension_map.cc:161-166`,
  `modules/rtp_rtcp/source/rtp_rtcp_impl2.cc:566-571`), and neither the audio level nor
  transport sequence numbers nor MID are deregistered before they are given a new one. A
  reconfiguration survives exactly when `Renumberable` holds of the ids
  (`AcceptedIff`, and `SequenceAcceptedIff` for whole sequences; `AudioLevelOneThenTwo`).
- The frame transformer. The channel ignores a null transformer
  (`audio/channel_send.cc:912-924`), so taking one away has no effect
  (`TransformerFromScratchIff`, `TransformerStays`).
- The encoder's layers. With RED configured, a change of the comfort-noise payload type peels
  the RED encoder (`ReconfigureShapedIff`, `RunShapedIff`, `RedIsLost`).
- The overhead known to the speech encoder. The comfort-noise encoder does not override
  OnReceivedOverhead, whose default does nothing (`api/audio_codecs/audio_encoder.cc:114`),
  so the overhead never passes it (`EncoderKnowsIff`, `RunEncoderKnowsIff`, `ComfortNoiseExample`). The comment at
  `audio/audio_send_stream.cc:619-620` reads as if it always arrived; the model follows the code.
- The adaptor. A request does not pass the comfort-noise encoder either, is not made while no
  codec is configured, and may be refused (`AdaptorKnownIff`, `RunAdaptorIff`,
  `AdaptorNotEnabled`).
- The allocator's copy. The ranges are re-read on every configuration, but the early return
  of ReconfigureBitrateObserver can keep a registration computed from older ones
  (`AllocationCurrentIff`, `RunAllocationCurrentIff`, `StaleAllocation`).
- The target bitrate. A configured target is said to be used over the codec's default
  (`audio/audio_send_stream.cc:577-578`), but every update of the bitrate allocator gives the
  encoder another one, and the allocator answers each registration with an update at once
  (`call/bitrate_allocator.cc:574-610`), so starting an allocated stream overrides it
  (`RunTargetKnownIff`, `TargetOverridden`).

The channel's packet overhead also differs until some overhead is known, because the
accountant starts with 72 bytes (`ChannelKnowsIff`). `FindHeaderExtensionByUri` under the
preferring filter returns the last unencrypted entry where deduplication keeps the first
(`LookupAgreement`, `LookupDisagrees`). `Equals` on report ids is an equivalence exactly on sets of
ids in which each report type has ids of one class, up to candidate ids, which count as
typed ids (`EquivalenceIff`, `MixedClassesAreNotAnEquivalence`).

## Model

| member | source | states |
|---|---|---|
| SendStreamSettings.RunSettles | audio/audio_send_stream.cc:210-303 | in every state of every run: CNAME is the configuration's, cut to 255 characters; frame encryptor and extmap-allow-mixed are the configuration's; audio level, absolute send time and absolute capture time are registered under the id of the last extension entry with their URI and not at all if there is none, the audio level flag following; the last log entry describes the configuration |
| SendStreamSettings.IncrementalEqualsFromScratch | audio/audio_send_stream.cc:210-332 | after any run these settings and the last log entry equal those of a stream first configured with the current configuration |
| SendStreamSettings.ConfigureSettles | audio/audio_send_stream.cc:210-303 | one ConfigureStream call takes settled links to links settled for the new configuration, whatever its diff leaves out |
| SendStreamSettings.LogSettles | audio/audio_send_stream.cc:47-77 | the log's last entry describes the new configuration whether or not one is appended |
| SendStreamSettings.ConfigureSwitchesOn | audio/audio_send_stream.cc:265-294 | one ConfigureStream call keeps transport sequence numbers and MID registered as used |
| SendStreamSettings.RunSwitchesOn | audio/audio_send_stream.cc:265-294 | in every run, if the last entry with the transport sequence number or MID URI has a non-zero id and the extension is in use, it is registered under that id, and the module has the configuration's MID |
| SendStreamSettings.RunLogs | audio/audio_send_stream.cc:47-77 | over every run the log has one entry for the first configuration and one for each that calls for another entry than the one before, and congestion control is registered once plus once for each change of the transport sequence number id |
| SendStreamSettings.TransformerIsLastSet | audio/audio_send_stream.cc:237-241 | after any run the channel holds the last non-null frame transformer of the run's configurations |
| SendStreamSettings.TransformerFromScratchIff | audio/channel_send.cc:912-924 | it is the current configuration's transformer if and only if that has one or no configuration ever had |
| SendStreamSettings.RegisterIff | modules/rtp_rtcp/source/rtp_header_extension_map.cc:134-171 | registering succeeds if and only if the pair is registered already, or the extension is unregistered and the id in range and unused |
| SendStreamSettings.AudioLevelIff | audio/audio_send_stream.cc:251-255 | the audio level stage passes if and only if the id is unchanged or 0, or there was none and the new one is free |
| SendStreamSettings.ReregisterIff | audio/audio_send_stream.cc:257-263 | a deregister-then-register stage passes if and only if the id is unchanged, 0 or free |
| SendStreamSettings.FeedbackIff | audio/audio_send_stream.cc:265-287 | the transport sequence number stage passes if and only if no new id is set, or it is the registered one, or none is registered and it is free |
| SendStreamSettings.MidIff | audio/audio_send_stream.cc:288-294 | likewise for the MID stage |
| SendStreamSettings.AcceptedIff | audio/audio_send_stream.cc:248-303 | a configuration, the first or a later one, passes the RTP module's checks if and only if the old and new ids, and the sticky transport sequence number and MID ids, satisfy an explicit condition |
| SendStreamSettings.AcceptedIds | audio/audio_send_stream.cc:248-303 | the ids registered after an accepted configuration, sticky ones included |
| SendStreamSettings.SequenceAcceptedIff | audio/audio_send_stream.cc:248-303 | a sequence of configurations is accepted if and only if each can be numbered after those before it, and the sticky ids are the last ones set |
| SendStreamSettings.RunLinks | audio/audio_send_stream.cc:210-332 | the settings after any run are those of its sequence of configurations, which is then acceptable |
| SendStreamSettings.RunMirrors | audio/audio_send_stream.cc:248-303 | in every run registered ids are in range and distinct and those of the deregistered kinds are the configuration's |
| SendStreamSettings.ConfigureKeepsWellRegistered | audio/audio_send_stream.cc:248-303 | every accepted configuration keeps registered ids in range and distinct |
| SendStreamSettings.RenumberedAudioLevelCrashes | audio/channel_send.cc:711-719 | after any run, reconfiguring with a different non-zero audio level id is fatal |
| SendStreamSettings.AudioLevelOneThenTwo | audio/audio_send_stream.cc:251-255 | audio level ids 1 and 2 are each accepted from scratch but not one after the other |
| SendStreamSettings.FixedNumberingIsAccepted | audio/audio_send_stream.cc:248-303 | a configuration that follows a numbering is accepted on links that do |
| SendStreamSettings.FixedNumberingNeverRefused | audio/audio_send_stream.cc:248-303 | a simple sufficient case: if all configurations number extensions by one injective in-range scheme, no registration is ever refused |
| SendStreamSettings.CongestionSets | audio/audio_send_stream.cc:265-287 | the first configuration registers; a later one resets and registers again, or does neither |
| SendStreamSettings.RunAlternates | audio/audio_send_stream.cc:265-287 | over every run register and reset calls of congestion control strictly alternate, from the constructor's register to the destructor's reset |
| SendStreamSettings.FindExtensionIds | audio/audio_send_stream.cc:183-204 | each of the seven fields is the id of the last entry with its own URI, 0 if there is none |
| SendStreamSettings.IdsByPosition | audio/audio_send_stream.cc:183-204 | the same of the function the model uses |
| SendStreamSettings.IdsOfDeduplicated | audio/audio_send_stream.cc:183-204 | on a deduplicated list that id is the id of the entry the filter selects from the original list, or 0 |
| SendStreamEncoder.RunShaped | audio/audio_send_stream.cc:561-676 | in every run without RED whose factory delivers, the installed encoder is a speech encoder with the current payload type and the current clock rate, channels, parameters and, up to ASCII case, name, inside one comfort-noise layer with the current payload type, or bare |
| SendStreamEncoder.FormatIff | api/audio_codecs/audio_format.cc:58-62 | formats are equal if and only if clock rate, channels and parameters are and the names agree character by character up to ASCII case |
| SendStreamEncoder.ShapedIff | audio/audio_send_stream.cc:595-617 | well-shaped means exactly the RED and comfort-noise layers asked for, RED outermost, around a speech encoder of that format and payload type |
| SendStreamEncoder.LayerProperties | modules/audio_coding/codecs/cng/audio_encoder_cng.cc:93-115 | sample rate, channels and packet length of a wrapped encoder are the speech encoder's, but for the one channel of comfort noise |
| SendStreamEncoder.ReconfigureShapedIff | audio/audio_send_stream.cc:706-743 | from a well-shaped encoder, RED included, and if the factory delivers when asked, the reconfigured one is well-shaped if and only if no RED layer was peeled for a comfort-noise change |
| SendStreamEncoder.StepShapedIff | audio/audio_send_stream.cc:632-743 | the same for every operation of the stream |
| SendStreamEncoder.RunShapedIff | audio/audio_send_stream.cc:632-743 | in every run whose factory delivers, the encoder is well-shaped after construction and each operation if and only if no reconfiguration changes comfort noise under RED without replacing the encoder |
| SendStreamEncoder.CngPeelsOneLayer | audio/audio_send_stream.cc:720-742 | changing the comfort-noise layer keeps the speech encoder, and gives the layers asked for exactly when there is no RED or nothing changed |
| SendStreamEncoder.SpeechEncoderReplacedIff | audio/audio_send_stream.cc:632-676 | a reconfiguration replaces the speech encoder if and only if the factory delivers and there was no codec or clock rate, channels, parameters, name up to case, payload type or RED payload type differ; the new one is what the factory made for that format |
| SendStreamEncoder.ReplacesIff | audio/audio_send_stream.cc:648-658 | the source's test for a new encoder, on those fields |
| SendStreamEncoder.RunSerialsInOrder | audio/audio_send_stream.cc:561-630 | in every run the installed speech encoder is one that was created before |
| SendStreamEncoder.RunStored | audio/audio_send_stream.cc:550-558 | in every run the stored sample rate and channels are those of the installed speech encoder |
| SendStreamAdaptor.AnaAdaptor | audio/audio_send_stream.cc:678-704 | the adaptor changes exactly if the configuration's does and no comfort-noise layer is in the way |
| SendStreamAdaptor.AdaptorKnownIff | audio/audio_send_stream.cc:678-704 | from a state in which the speech encoder runs the configured adaptor, an operation leads to another one if and only if the adaptor need not change, or the encoder left installed is new or without comfort noise and accepts, the codec being configured |
| SendStreamAdaptor.ConstructAdaptorIff | audio/audio_send_stream.cc:583-593 | the same for construction |
| SendStreamAdaptor.RunAdaptorIff | audio/audio_send_stream.cc:678-704 | it runs the configured adaptor after construction and after each operation of a run if and only if all of them meet their condition |
| SendStreamEncoder.SetupIsShaped | audio/audio_send_stream.cc:561-630 | a new encoder has the layers asked for around what the factory made, was told the target bitrate, and the overhead unless comfort noise hides it, runs the adaptor if it accepts, and its properties are stored |
| SendStreamEncoder.OverheadReaches | modules/audio_coding/codecs/cng/audio_encoder_cng.cc:28-75 | a wrapped speech encoder is told the overhead if and only if no comfort-noise encoder is in the way; layers never change |
| SendStreamEncoder.TargetReaches | modules/audio_coding/codecs/cng/audio_encoder_cng.cc:225-230 | a target bitrate always reaches the speech encoder |
| SendStreamEncoder.RateReaches | audio/channel_send.cc:619-630 | an allocator update reaches the speech encoder through all layers and changes nothing but its target |
| SendStreamEncoder.AdaptorReaches | modules/audio_coding/codecs/cng/audio_encoder_cng.cc:28-75 | an adaptor is enabled if and only if the encoder accepts it and no comfort-noise encoder is in the way |
| SendStreamEncoder.AdaptorRemoved | modules/audio_coding/codecs/cng/audio_encoder_cng.cc:28-75 | likewise for disabling |
| SendStreamEncoder.AnaKeepsLayers | audio/audio_send_stream.cc:678-704 | reconfiguring the adaptor keeps layers and target bitrate, and repeats the overhead exactly to an encoder whose adaptor it has enabled |
| SendStreamEncoder.KeptEncoder | audio/audio_send_stream.cc:660-675 | a reconfiguration without a new encoder keeps the speech encoder and gives it a changed target bitrate |
| SendStreamEncoder.LayersForeseen | audio/audio_send_stream.cc:632-743 | whether an encoder is installed, has a comfort-noise layer or is bare after a reconfiguration follows from the configurations, the factory's answer and the layers before |
| SendStreamOverhead.EncoderKnowsIff | audio/audio_send_stream.cc:505-521 | from a state in which the speech encoder knows the overhead, an operation leads to another one if and only if, as read off before it, the encoder left installed has no comfort-noise layer, or the new overhead is the one it already knows (0 for a new encoder) |
| SendStreamOverhead.ConstructKnowsIff | audio/audio_send_stream.cc:595-627 | after construction the speech encoder knows the overhead if and only if there is no encoder, no comfort noise or no overhead |
| SendStreamOverhead.RunEncoderKnowsIff | audio/audio_send_stream.cc:505-521 | it knows the overhead after construction and after each operation of a run if and only if construction and every operation meet their condition |
| SendStreamOverhead.TellOverheadIff | audio/audio_send_stream.cc:505-521 | a changed overhead reaches the speech encoder if and only if it has no comfort-noise layer |
| SendStreamOverhead.RunEncoderKnows | audio/audio_send_stream.cc:619-627 | in every run without comfort noise the speech encoder knows the current overhead, across replacement, RED and adaptor changes |
| SendStreamOverhead.ComfortNoiseHidesOverhead | modules/audio_coding/codecs/cng/audio_encoder_cng.cc:28-75 | a stream constructed with comfort noise leaves its speech encoder at overhead 0 |
| SendStreamOverhead.ComfortNoiseExample | audio/audio_send_stream.cc:595-606 | one such stream, with 12 bytes of overhead |
| SendStreamOverhead.RunOverhead | audio/audio_send_stream.cc:498-521 | over every run the overhead is computed from the arguments of the operations |
| SendStreamOverhead.ChannelKnowsIff | audio/channel_send.cc:60-96 | over every run the channel's packet overhead is the stream's if and only if the operations' arguments have made for some overhead at some time; otherwise it is 72 |
| SendStreamRates.ConstraintsOrdered | audio/audio_send_stream.cc:826-876 | with ordered frame lengths the bounds stay in order after overhead is added |
| SendStreamRates.RateFalls | api/units/data_rate.h:102-105 | overhead per second, with truncating division, does not grow with the frame length |
| SendStreamRates.ConstraintsAre | audio/audio_send_stream.cc:826-876 | there are constraints if and only if both limits are non-negative, the payload bounds (the encoder's, else the trial's, else the configuration's) are in order and frame lengths are known unless the calculation is legacy; they are the payload bounds plus the rounded-down rate of the overhead per longest and per shortest frame, or of 50 bytes per 60 ms |
| SendStreamRates.EntryFields | audio/audio_send_stream.cc:779-819 | what minimum, maximum, priority bitrate and bitrate priority of an allocator entry are, field by field, legacy case included, and when there is one |
| SendStreamRates.ForwardedWithinConstraints | audio/audio_send_stream.cc:477-492 | every forwarded rate lies within the constraints and a rate within them is forwarded unchanged |
| SendStreamRates.ForwardedMonotone | audio/audio_send_stream.cc:477-492 | clamping never reorders two rates |
| SendStreamRates.RunAlive | audio/audio_send_stream.cc:334-366 | in every run the registration flag equals the allocator's entry and implies sending, while sending the part-of-allocation flag equals it, AudioState holds the stream with the stored properties exactly while it is sending, and so does the channel |
| SendStreamRates.StepKeepsAlive | audio/audio_send_stream.cc:334-366 | every operation keeps that life-cycle invariant |
| SendStreamRates.ObservedIff | audio/audio_send_stream.cc:745-764 | the early return is taken if and only if limits, bitrate priority, transport sequence number id and adaptor are the same; otherwise the stream registers if and only if it has limits, no DSCP and feedback |
| SendStreamRates.StartsIff | audio/audio_send_stream.cc:340-349 | starting registers if and only if there are limits, no DSCP, and feedback or the trial that does without |
| SendStreamRates.RegisteredIff | audio/audio_send_stream.cc:334-366 | whether the stream is registered after each operation, on the configurations and the state before |
| SendStreamRates.PartOfAllocationIff | audio/audio_send_stream.cc:334-366 | the same for the RTP module's part-of-allocation flag, which stopping leaves alone |
| SendStreamRates.AllocationCurrentIff | audio/audio_send_stream.cc:745-777 | from a current allocation, an operation leads to a current one if and only if it does not take the early return, or the ranges it will read call for the same values as those read before |
| SendStreamRates.RunAllocationCurrentIff | audio/audio_send_stream.cc:745-777 | the allocation is current after construction and after each operation of a run if and only if every operation meets that condition |
| SendStreamRates.ReconfiguredAllocation | audio/audio_send_stream.cc:745-777 | a reconfiguration leaves in the allocator what the old ranges call for if it returns early, else what the new ones do |
| SendStreamRates.RangesForeseen | audio/audio_send_stream.cc:316-323 | the ranges after a reconfiguration follow from what is known before it |
| SendStreamRates.RunAllocationCurrent | audio/audio_send_stream.cc:779-819 | in every run whose ranges do not change while registered, the fields of the allocator entry are those the current configuration, overhead and ranges call for, field by field |
| SendStreamSurvival.CodecSurvivesIff | audio/audio_send_stream.cc:561-743 | reconfiguring the codec goes through if and only if comfort noise is put on encoders of one channel and at most 100 ms per packet only, and changed only if there is an encoder |
| SendStreamSurvival.UpdateSurvivesIff | audio/audio_send_stream.cc:505-521 | a poll of the overhead goes through if and only if the stream is not registered, the overhead stays, or there are constraints |
| SendStreamSurvival.ObserverSurvivesIff | audio/audio_send_stream.cc:745-777 | reconfiguring the observer goes through if and only if it does not register or there are constraints for the new limits |
| SendStreamSurvival.StepSurvivesIff | audio/audio_send_stream.cc:210-366 | every operation goes through if and only if an explicit condition on ids, codec, registration, overhead, limits and ranges holds before it |
| SendStreamSurvival.ConstructSurvivesIff | audio/audio_send_stream.cc:135-151 | the same for construction |
| SendStreamSurvival.RunSurvivesIff | audio/audio_send_stream.cc:210-366 | a run goes through if and only if construction and every operation meet their condition |
| SendStreamTarget.StepTarget | audio/audio_send_stream.cc:477-492 | after an operation the speech encoder's target is the last rate forwarded for the allocator's updates, answers to registrations included, or else what reconfiguring the codec left |
| SendStreamTarget.RecodedTarget | audio/audio_send_stream.cc:561-676 | reconfiguring the codec gives the configured target exactly to a new encoder, or to a kept one if it is a new target |
| SendStreamTarget.RunTarget | audio/audio_send_stream.cc:477-492 | in every run the installed encoder's target is the last one given, by a configuration or by an update |
| SendStreamTarget.GivenOrUpdated | audio/audio_send_stream.cc:577-581 | the last one given is the configured one, unless an update came after it |
| SendStreamTarget.RunTargetKnownIff | audio/audio_send_stream.cc:660-670 | in every run whose factory delivers, the configured target is the one the encoder was last given if and only if no update followed the configuration that gave it, or the last one forwarded that very rate |
| SendStreamExamples.StaleAllocation | audio/audio_send_stream.cc:745-758 | a run in which a codec change leaves 13333 and 85000 bps in the allocator where 16666 and 71666 are called for |
| SendStreamExamples.TargetOverridden | call/bitrate_allocator.cc:598-610 | a run in which starting the stream replaces a configured target of 32000 bps by 13333 bps |
| SendStreamExamples.RedIsLost | audio/audio_send_stream.cc:720-742 | a run in which adding comfort noise removes the RED encoder |
| SendStreamExamples.TransformerStays | audio/channel_send.cc:912-924 | a run in which a removed frame transformer stays installed |
| SendStreamExamples.AdaptorNotEnabled | audio/audio_send_stream.cc:678-704 | a run in which an adaptor asked for under comfort noise is not enabled |
| SendStream.RunCoherent | audio/audio_send_stream.cc:210-366 | every run ends in settled settings, registered ids that mirror the configuration, alternating congestion-control calls and a consistent life cycle; this is the invariant of the object |
| SendStream.AudioSendStream.constructor | audio/audio_send_stream.cc:127-162 | the fields before the first configuration |
| SendStream.AudioSendStream.UpdateEventLogStreamConfig | audio/audio_send_stream.cc:47-77 | the log grows by the entry of the new configuration exactly when something logged differs |
| SendStream.AudioSendStream.ConfigurePlainSettings | audio/audio_send_stream.cc:228-246 | new CNAME, encryptor, transformer and extmap flag |
| SendStream.AudioSendStream.RegisterRtpHeaderExtension | modules/rtp_rtcp/source/rtp_rtcp_impl2.cc:566-571 | registers or crashes, as the extension map decides |
| SendStream.AudioSendStream.DeregisterSendRtpHeaderExtension | modules/rtp_rtcp/source/rtp_rtcp_impl2.cc:573-576 | removes the extension's id and nothing else |
| SendStream.AudioSendStream.SetSendAudioLevelIndicationStatus | audio/channel_send.cc:711-719 | sets the flag and registers without deregistering, or deregisters |
| SendStream.AudioSendStream.ConfigureAudioLevelIndication | audio/audio_send_stream.cc:251-255 | the audio level stage of ConfigureStream |
| SendStream.AudioSendStream.ConfigureExtension | audio/audio_send_stream.cc:257-263 | the deregister-then-register stages |
| SendStream.AudioSendStream.ConfigureCongestionControl | audio/audio_send_stream.cc:265-287 | the transport sequence number stage and its reset and register calls |
| SendStream.AudioSendStream.ConfigureMidExtension | audio/audio_send_stream.cc:288-294 | the MID stage |
| SendStream.AudioSendStream.ConfigureSettings | audio/audio_send_stream.cc:210-303 | all stages in order, or the crash of the first that is refused |
| SendStream.AudioSendStream.StoreProperties | audio/audio_send_stream.cc:550-558 | stored properties, and AudioState's entry while sending |
| SendStream.AudioSendStream.SetupCodec | audio/audio_send_stream.cc:561-630 | the new encoder with its layers, or nothing if the factory fails, or the crash of an invalid comfort-noise configuration |
| SendStream.AudioSendStream.ReconfigureAdaptor | audio/audio_send_stream.cc:678-704 | adaptor enabled and told the overhead, or disabled, through the installed layers |
| SendStream.AudioSendStream.ReconfigureComfortNoise | audio/audio_send_stream.cc:706-743 | one layer peeled and a comfort-noise layer put on |
| SendStream.AudioSendStream.ReconfigureCodec | audio/audio_send_stream.cc:632-676 | goes through exactly under the comfort-noise conditions; the choice between nothing, a new encoder and an update |
| SendStream.AudioSendStream.GetMinMaxBitrateConstraints | audio/audio_send_stream.cc:826-876 | the bounds, field by field, or none, and when there are any |
| SendStream.AudioSendStream.ClampRate | audio/audio_send_stream.cc:477-492 | a rate clamped into the constraints, if there are any |
| SendStream.AudioSendStream.ForwardRate | audio/channel_send.cc:619-630 | the encoder's new target |
| SendStream.AudioSendStream.ConfigureObserver | audio/audio_send_stream.cc:779-819 | goes through exactly if there are constraints; then the flag is set, each field of the allocator's entry is as specified and the encoder gets the allocator's answer |
| SendStream.AudioSendStream.RemoveObserver | audio/audio_send_stream.cc:821-824 | neither entry nor flag |
| SendStream.AudioSendStream.ReconfigureObserver | audio/audio_send_stream.cc:745-777 | early return, re-registration with the new limits and its answer, or removal |
| SendStream.AudioSendStream.UpdateOverheadPerPacket | audio/audio_send_stream.cc:505-521 | goes through exactly if the stream is not registered, the overhead stays or there are constraints; overhead, encoder, allocator entry and answer, and channel overhead |
| SendStream.AudioSendStream.ReadEncoderRanges | audio/audio_send_stream.cc:316-323 | ranges of the installed encoder; wrappers hide the bitrate range |
| SendStream.AudioSendStream.ConfigureEncoderAndRates | audio/audio_send_stream.cc:305-329 | ConfigureStream from the codec on |
| SendStream.AudioSendStream.ApplyConfiguration | audio/audio_send_stream.cc:210-332 | the effect of a ConfigureStream call |
| SendStream.AudioSendStream.Configure | audio/audio_send_stream.cc:210-332 | a ConfigureStream call goes through exactly under the conditions above; afterwards the object is valid: its state is the one of the run so far and all mirrors that never fail hold |
| SendStream.AudioSendStream.BeginSending | audio/audio_send_stream.cc:334-354 | the effect of a Start call |
| SendStream.AudioSendStream.StartSending | audio/audio_send_stream.cc:334-354 | a Start call goes through exactly under the condition above and keeps the object valid |
| SendStream.AudioSendStream.StopSending | audio/audio_send_stream.cc:356-366 | a Stop call; keeps the object valid |
| SendStream.AudioSendStream.SetTransportOverheadPerPacket | audio/audio_send_stream.cc:498-503 | a SetTransportOverhead call goes through exactly under the condition above and keeps the object valid |
| SendStream.AudioSendStream.DeliverRtcp | audio/audio_send_stream.cc:469-475 | a DeliverRtcp call goes through exactly under the condition above and keeps the object valid |
| SendStream.AudioSendStream.OnBitrateUpdated | audio/audio_send_stream.cc:477-492 | the encoder is given the clamped target; with ordered frame lengths both forwarded rates lie within the constraints and in the order of target and stable target; the protection rate is 0; keeps the object valid |
| SendStream.AudioSendStream.Destruct | audio/audio_send_stream.cc:164-169 | the last congestion-control reset, after which register and reset calls of the object's whole life alternate |
| RtpExtensions.HeaderExtensionWithUriExists | api/rtp_parameters.cc:217-226 | true exactly when some entry has the URI |
| RtpExtensions.FindHeaderExtensionByUri | api/rtp_parameters.cc:228-267 | by position: the first unencrypted entry with the URI, or the first encrypted one, or under the preferring filter the first encrypted and, if none is, the last unencrypted one; none exactly if there is no such position |
| RtpExtensions.FindHeaderExtensionByUriAndEncryption | api/rtp_parameters.cc:269-279 | the first entry with URI and encryption |
| RtpExtensions.Pass | api/rtp_parameters.cc:286-296 | one filtering loop keeps the URIs unique and adds, for each URI not yet taken, the first entry of its kind |
| RtpExtensions.PassesSelect | api/rtp_parameters.cc:281-309 | the passes a filter asks for keep exactly the selected entries, one per URI |
| RtpExtensions.InsertKeepsOrder | api/rtp_parameters.cc:311-317 | inserting before the first entry that is not smaller keeps URIs ascending |
| RtpExtensions.BeforeIff | api/rtp_parameters.cc:311-317 | the order of URIs is lexicographic: equal up to a position where the first ends or has the smaller character |
| RtpExtensions.Sort | api/rtp_parameters.cc:311-317 | lexicographically ascending URIs with the same members |
| RtpExtensions.DeduplicateHeaderExtensions | api/rtp_parameters.cc:281-320 | lexicographically ascending URIs, and by position exactly the entries kept: the first encrypted one of a URI unless discarding, and the first unencrypted one if discarding or if the preferring filter meets no encrypted one |
| RtpExtensions.CanonicalUnique | api/rtp_parameters.cc:311-319 | only one list meets that specification |
| RtpExtensions.Idempotent | api/rtp_parameters.cc:281-320 | deduplicating twice gives the same list |
| RtpExtensions.OrderDoesNotMatter | api/rtp_parameters.cc:281-320 | permuting an input in which no two entries share URI and encryption does not change the output |
| RtpExtensions.OutputSelects | api/rtp_parameters.cc:281-320 | the output selects for every URI what the input does |
| RtpExtensions.LookupAgreement | api/rtp_parameters.cc:228-320 | lookup and deduplication agree on a URI if and only if the filter is not the preferring one, an encrypted entry exists, or the first and last unencrypted entries are equal |
| RtpExtensions.DistinctListsAgree | api/rtp_parameters.cc:228-320 | they always agree on lists in which no two entries share URI and encryption |
| RtpExtensions.LookupDisagrees | api/rtp_parameters.cc:246-254 | two unencrypted entries with one URI on which they differ |
| RefCountProtocol.LastReferenceDroppedOnce | api/ref_counted_base.h:27-34 | in every interleaving the count is the number of references owned, and exactly one Release has returned kDroppedLastRef once nobody owns one, none before |
| RefCountProtocol.DeletedOnceAndUnowned | api/ref_counted_base.h:28-34 | in every interleaving deletion happens at most once, nobody owns a reference at or after it, and it has happened when nobody owns one and no Release is unfinished |
| RefCountProtocol.NoUseAfterDelete | api/ref_counted_base.h:27-34 | after the deletion no thread can take another step on the object |
| RefCountProtocol.OwnerMayAct | api/ref_counted_base.h:27-34 | in every reachable state an owner can take another reference and can give one up, and is told kDroppedLastRef exactly if nobody owns one then |
| RefCountProtocol.CanBeDeleted | api/ref_counted_base.h:28-34 | from every state in which the object is in use there are steps that delete it |
| RefCountProtocol.HasOneRefIsExclusive | rtc_base/ref_counter.h:54-66 | an owner that sees a count of one is the only owner |
| RefCountProtocol.InvStep | rtc_base/ref_counter.h:25-52 | every atomic step keeps the accounting invariant |
| RefCountProtocol.InvRun | rtc_base/ref_counter.h:25-52 | the invariant holds after every interleaving |
| ScopedRefptrs.HeapDestroysIffDropped | api/scoped_refptr.h:79-161 | whatever operations a heap has been through, an object is destroyed if and only if it lost its last reference, which happens at most once, and no live handle dangles |
| ScopedRefptrs.DestroyedIffLastDropped | api/scoped_refptr.h:79-161 | the same along any trace; every operation extends the heap's trace |
| ScopedRefptrs.EffectDeterminesMemory | api/scoped_refptr.h:79-161 | where handles point and what is handed out determine all counts and destructions of an operation |
| ScopedRefptrs.NoDanglingHandle | api/scoped_refptr.h:104-112 | every live handle is null or points at an object that is not destroyed and has a positive count |
| ScopedRefptrs.EffectIsTransition | api/scoped_refptr.h:79-161 | every operation is a step of such a run |
| ScopedRefptrs.Heap.New | api/ref_counted_base.h:43-44 | a new object with count 0, nothing else changes |
| ScopedRefptrs.Heap.AddRef | api/ref_counted_base.h:27-27 | one count goes up by one |
| ScopedRefptrs.Heap.Release | api/ref_counted_base.h:28-34 | one count goes down by one, and at zero the object is destroyed |
| ScopedRefptrs.Heap.ReleaseHandedOut | api/scoped_refptr.h:114-118 | the owner of a released pointer gives its reference up |
| ScopedRefptrs.Heap.ConstructRaw | api/scoped_refptr.h:79-85 | the new handle points at the object, counts balance |
| ScopedRefptrs.Heap.ConstructCopy | api/scoped_refptr.h:87-96 | as the copied handle |
| ScopedRefptrs.Heap.ConstructMove | api/scoped_refptr.h:98-102 | the source handle becomes null, no count changes |
| ScopedRefptrs.Heap.Destruct | api/scoped_refptr.h:104-107 | the handle is gone, and so is its object if it was the last reference |
| ScopedRefptrs.Heap.ReleasePointer | api/scoped_refptr.h:119-123 | the handle becomes null, its reference is handed out, no count changes |
| ScopedRefptrs.Heap.AssignRaw | api/scoped_refptr.h:125-133 | points at the new object, the pointer already held included |
| ScopedRefptrs.Heap.AssignCopy | api/scoped_refptr.h:135-142 | as the other handle, itself included |
| ScopedRefptrs.Heap.AssignMove | api/scoped_refptr.h:144-153 | takes over the other handle's pointer, which becomes null; onto itself nothing changes |
| ScopedRefptrs.Heap.SwapRaw | api/scoped_refptr.h:155-159 | handle and raw pointer change places, no count changes |
| ScopedRefptrs.Heap.Swap | api/scoped_refptr.h:161-161 | two pointers change places, no count changes |
| StatsReports.ComparableIff | api/legacy_stats_types.cc:77-204 | two ids can be compared both ways if and only if their types differ or they are of one class, a candidate id counting as a typed id; Equals then compares what that class holds |
| StatsReports.TypesOfIds | api/legacy_stats_types.cc:70-190 | the report type each id class stands for |
| StatsReports.EquivalenceIff | api/legacy_stats_types.cc:77-204 | Equals is defined on all pairs of a set of ids, reflexive, symmetric and transitive if and only if each report type among them has ids of one such class |
| StatsReports.EqualsIsEquality | api/legacy_stats_types.cc:77-204 | with one id class per report type Equals is equality |
| StatsReports.MixedClassesAreNotAnEquivalence | api/legacy_stats_types.cc:82-124 | a plain id equals two directed ids of its type that differ, and the comparisons the other way round are undefined |
| StatsReports.MergeIsRightBiasedUnion | api/legacy_stats_types.cc:854-870 | merging keeps ids distinct, and a lookup then gives the last merged report with the id, else the old one |
| StatsReports.MergeKeepsPositions | api/legacy_stats_types.cc:854-870 | existing ids keep their positions and new ids are appended in order of first occurrence |
| StatsReports.MergeIntoEmptyRestores | api/legacy_stats_types.cc:845-870 | merging a detached list into an empty collection restores it |
| StatsReports.PutKeepsDistinct | api/legacy_stats_types.cc:856-869 | merging one report keeps ids distinct |
| StatsReports.PutLooksUp | api/legacy_stats_types.cc:856-869 | merging one report changes the lookup of its id only |
| StatsReports.MoveConserves | api/legacy_stats_types.cc:854-870 | merging one report moves it in and the displaced one out, and loses or doubles none |
| StatsReports.ExactlyOnePlace | api/legacy_stats_types.cc:795-799 | every report that came under the collection's control is held, detached or deleted, exactly one of these and not twice |
| StatsReports.StatsCollection.constructor | api/legacy_stats_types.cc:793-793 | an empty collection that owns nothing |
| StatsReports.StatsCollection.Find | api/legacy_stats_types.cc:872-880 | the report with the id, or none |
| StatsReports.StatsCollection.FindIndex | api/legacy_stats_types.cc:876-878 | the position of the id, comparing with Equals |
| StatsReports.StatsCollection.InsertNew | api/legacy_stats_types.cc:816-822 | the new report at the end |
| StatsReports.StatsCollection.FindOrAddNew | api/legacy_stats_types.cc:824-828 | the report found, or a new one at the end |
| StatsReports.StatsCollection.ReplaceOrAddNew | api/legacy_stats_types.cc:830-843 | a new report in the place of the old one, which is deleted, or at the end |
| StatsReports.StatsCollection.DetachCollection | api/legacy_stats_types.cc:845-852 | the whole list is handed out and nothing is left |
| StatsReports.StatsCollection.MergeReport | api/legacy_stats_types.cc:856-869 | one report merged, the one it displaces deleted |
| StatsReports.StatsCollection.MergeCollection | api/legacy_stats_types.cc:854-870 | the merged list, the displaced reports deleted in order, every report accounted for |
| StatsReports.StatsCollection.Destruct | api/legacy_stats_types.cc:795-799 | exactly the reports still held are deleted |
| AudioLevels.MaxAbsValue | common_audio/signal_processing/min_max_operations.c:38-58 | the largest magnitude, saturated to 32767 |
| AudioLevels.FullWindow | audio/audio_level.cc:68-82 | a full window publishes the maximum of the carried and the new peaks and carries a quarter of it |
| AudioLevels.PeakDecay | audio/audio_level.cc:55-82 | after n full windows since a reset the level is the maximum over the windows j of floor(peak of j / 4^(windows since j)) |
| AudioLevels.SilentWindows | audio/audio_level.cc:68-82 | n silent windows divide the carried peak by 4 to the n, rounded down |
| AudioLevels.SilenceWithin98 | audio/audio_level.cc:68-82 | after any history 98 silent frames bring the level to zero |
| AudioLevels.SilenceFromReachable | audio/audio_level.cc:68-82 | likewise from every state the meter can be in |
| AudioLevels.SilenceNeeds98 | audio/audio_level.cc:68-82 | one loud frame is still audible after 97 silent ones |
| AudioLevels.EnergyWithinDuration | audio/audio_level.cc:90-94 | with non-negative durations the energy never exceeds the duration |
| AudioLevels.EnergyIsSumOfSquares | audio/audio_level.cc:84-94 | over any frames the energy gained is the sum of duration times the squared fraction of full scale of the level published by then, and the duration gained is theirs |
| AudioLevels.EnergyBounds | audio/audio_level.cc:90-94 | one frame's energy lies between zero and its duration |
| AudioLevels.AudioLevel.constructor | audio/audio_level.cc:19-20 | a quiet meter |
| AudioLevels.AudioLevel.ComputeLevel | audio/audio_level.cc:55-95 | one frame's effect on all fields; the energy gained is the duration times the squared fraction of full scale |
| AudioLevels.AudioLevel.Reset | audio/audio_level.cc:24-31 | everything zero |
| AudioLevels.AudioLevel.ResetLevelFullRange | audio/audio_level.cc:38-43 | the level zero, energy and duration kept |
| FieldTrials.InsertIntoMap | api/field_trials.cc:26-59 | accepts precisely printed lists of non-empty slash-free keys and values and gives their first-wins map; a refused input is a printed list followed by text that breaks the check reported, which is never the last one |
| FieldTrials.FailureExplained | api/field_trials.cc:30-47 | what each failed check says about the text from the first unreadable pair on |
| FieldTrials.ParseExactly | api/field_trials.cc:26-59 | parsing is the inverse of printing |
| FieldTrials.ParseSound | api/field_trials.cc:26-59 | an accepted input is the printed form of the trials read |
| FieldTrials.ParseComplete | api/field_trials.cc:26-59 | a printed list is read back unchanged |
| FieldTrials.FirstWinsLooksUpFirst | api/field_trials.cc:48-51 | the map holds for a key the value of its first occurrence |
| FieldTrials.FieldTrialsMap.GetValue | api/field_trials.cc:98-110 | that value, else the global one, else the empty string |
| IcePriority.PriorityIsRfcSum | api/candidate.cc:139-180 | the or of shifts is the sum of section 4.1.2.1 of RFC 5245 and fits 32 bits |
| IcePriority.LocalPreferenceIsSum | api/candidate.cc:139-165 | the local preference is the sum of its parts and fits 16 bits |
| IcePriority.PackedFields | api/candidate.cc:139-165 | fields or-ed after their shifts do not overlap |
| IcePriority.PriorityOrdersLexicographically | api/candidate.cc:139-180 | one priority exceeds another if and only if type preference, then local preference, then the lower component decide so |
| IcePriority.RelayedNeverOutranks | api/candidate.cc:164-177 | a relayed candidate's STUN priority stays at or below that of a non-relayed one with the same adapter, address precedence and component if and only if its relay preference exceeds the other's by at most 32 with the adjustment, or not at all without |
| IcePriority.StunPriorityIsSum | api/candidate.cc:167-170 | the PRIORITY attribute of section 7.1.2.1 of RFC 5245 as a sum |
| EventLogOutput.CapacityTestIsExact | api/rtc_event_log_output_file.cc:27-32 | a limited sink's size sum never wraps |
| EventLogOutput.AcceptedWithinLimit | api/rtc_event_log_output_file.cc:62-83 | over any run the counter of a limited sink is the exact number of bytes accepted and at most the limit |
| EventLogOutput.OpenIffNeverFailed | api/rtc_event_log_output_file.cc:80-88 | the sink is open if and only if no write has failed |
| EventLogOutput.OpenIffAllFits | api/rtc_event_log_output_file.cc:62-83 | a limited sink stays open over a run if and only if the file takes every write and all of them together fit below the limit |
| EventLogOutput.ClosedForGood | api/rtc_event_log_output_file.cc:80-88 | a closed sink accepts nothing and stays as it is, whatever is written |
| EventLogOutput.RtcEventLogOutputFile.Write | api/rtc_event_log_output_file.cc:62-83 | succeeds if and only if the sink is open, the file accepts and the exact sum stays within the limit, which the counter then is; else the sink is closed, and a closed one stays so |
| EventLogOutput.RtcEventLogOutputFile.constructor | api/rtc_event_log_output_file.cc:49-56 | an empty sink whose limit passes the size check |

## Left out

- FEC itself, video, transports, peer connections and everything else outside the files above.
- Pacer and probing flags of the transport controller: other streams share and change them.
- Callbacks of Reconfigure, logging, mutexes, sequence checkers and the encoder task queue: the channel's posted tasks take effect in order.
- Statistics copying, muting, telephone events and audio data of the send stream: no property beyond the copying.
- What a speech encoder makes of what it is told: the model records the last overhead and the last target, while Opus passes an update to its adaptor if it has one, subtracts the overhead otherwise, and ignores it while it knows of none.
- The allocator's choice of rates, and its updates of other streams: every rate it sends is a parameter. The stable target is forwarded by OnBitrateUpdated but not recorded, and the retransmission limiter is left out.
- SendStream.AudioSendStream.ConfigurePlainSettings: a CNAME with an embedded NUL character, which the channel cuts there, is kept whole up to 255 characters.
- SendStream.AudioSendStream.SetTransportOverheadPerPacket: byte counts are unbounded naturals, so neither a negative argument nor size_t wrap-around is modelled.
- SendStream.AudioSendStream.GetMinMaxBitrateConstraints: rates are unbounded naturals; infinite rates and the 32-bit cast of the allocator entry are not modelled.
- SendStreamSettings.TransformerIsLastSet: covers runs that give a second transformer, which an assertion of the channel forbids; where it holds, the first transformer given is the last.
- ScopedRefptrs.Heap.Release: a destructor that itself touches other handles is not modelled.
- RefCountProtocol.InvStep: the counter is unbounded and every atomic step is sequentially consistent; memory orders are not modelled.
- RtpExtensions.Sort: sorts by insertion into a new list; std::sort's algorithm and in-place update are not modelled, and `CanonicalUnique` shows that the result does not depend on them.
- StatsReports.StatsCollection.InsertNew: report values and timestamps are not modelled, and addresses are not reused.
- AudioLevels.AudioLevel.ComputeLevel: energy and duration are reals, without floating-point rounding.
- EventLogOutput.RtcEventLogOutputFile.Write: bytes of a write that fails part way are not counted, as in the source.
- ComputeFoundation, candidate equivalence and sanitizing; the other receive-side and interface files of the API: easy beside what is modelled.
