# Return-link frame geometry and UT MAC scheduling

This project models two pieces of the return link of a satellite network
simulator, and proves properties about them.

The first is the frame geometry:
- A BTU (the elementary transmission unit) defines a carrier bandwidth.
- A frame is a band of identical carriers, with time slots.
- A superframe is an ordered list of frames.
- Every carrier has a local id inside its frame, and a flat global id
  across the superframe.

The model proves that the superframe's carrier-id computation and its
linear scans back from a global id are inverse to each other. It also
proves that every carrier centre frequency lies inside its frame's band,
and that centre frequencies increase strictly with the carrier id.

The second is the MAC layer of a user terminal (UT):
- It turns a TBTP (the terminal burst time plan, the allocation message
  of the gateway) into timed transmit opportunities.
- It fills each opportunity with PDUs from its queue, bounded by the
  payload budget.
- It keeps a registry of the random-access slots it has used, per frame
  and channel, and prunes past frames.
- It dispatches received packets by their MAC and control tags.

The simulator schedule is the `events` field of the UT MAC. Scheduling an
event appends a (delay, event) pair to it. Time is an integer tick count.
A fatal error of the source is an `Err` result. An assertion of the
source, or a vector index it does not check, is a `requires`.

Files:
- `wrappers.dfy`: the `Option` and `Result` types.
- `frame_conf.dfy`: module `SatelliteFrameConf`, which models
  `helper/satellite-frame-conf.cc`.
- `ut_mac.dfy`: module `SatelliteUtMac`, which models
  `model/satellite-ut-mac.cc`.

Inputs that the MAC receives from code outside this model are fields or
parameters of the model:
- the waveform payload and burst-duration lookups;
- the superframe transmit time (computed from the sequence id, the
  counter and the timing advance);
- the random-access algorithm;
- the current time and the timing advance;
- the control-message store;
- the queue's successive answers.

A PDU larger than the room left in a transmit opportunity is fatal
(model/satellite-ut-mac.cc:373-380), and so it is in `Collect`.

## Model

| member | source | states |
|---|---|---|
| SatelliteFrameConf.FrameConf.constructor | helper/satellite-frame-conf.cc:80-92 | the fields are the arguments, a missing slot vector is empty, and the carrier count is the integer quotient of the frame bandwidth by the BTU bandwidth: count*w <= bandwidth < (count+1)*w |
| SatelliteFrameConf.CarriersFitFrame | helper/satellite-frame-conf.cc:88 | the carriers of a frame fit its band and leave less than one carrier width unused |
| SatelliteFrameConf.FrameConf.CarrierFrequency | helper/satellite-frame-conf.cc:99-107 | for a local carrier id below the carrier count (the assertion at :102), the centre w*c + w/2 lies strictly inside the carrier's own slice [w*c, w*(c+1)), w being the BTU bandwidth |
| SatelliteFrameConf.FrameConf.GetTimeSlotConf | helper/satellite-frame-conf.cc:109-117 | bounds-checked lookup: the index must be below the number of slots (the assertion at :114), and the slot at that index is returned |
| SatelliteFrameConf.CarrierFrequencyInBand | helper/satellite-frame-conf.cc:99-107 | the centre of every local carrier lies strictly inside the frame band (0, bandwidth) |
| SatelliteFrameConf.CarrierFrequencyIncreasing | helper/satellite-frame-conf.cc:99-107 | local centre frequencies are strictly increasing in the carrier id |
| SatelliteFrameConf.FrameConf.AddTimeSlotConf | helper/satellite-frame-conf.cc:109-125 | the slot list gains exactly the new slot at the end, GetTimeSlotConf returns it at the old size, and every earlier slot is unchanged |
| SatelliteFrameConf.SuperframeConf.constructor | helper/satellite-frame-conf.cc:135-147 | the fields are the arguments and a missing frame vector is empty |
| SatelliteFrameConf.SuperframeConf.AddFrameConf | helper/satellite-frame-conf.cc:154-168 | the frame list gains exactly the new frame at the end, GetFrameConf returns it at the old size, and every earlier frame is unchanged |
| SatelliteFrameConf.SuperframeConf.GetFrameConf | helper/satellite-frame-conf.cc:162-168 | unchecked vector index: callers must pass an index below the number of frames, and the frame at that index is returned |
| SatelliteFrameConf.SuperframeConf.GetCarrierCount | helper/satellite-frame-conf.cc:170-181 | the loop returns the sum of all frames' carrier counts |
| SatelliteFrameConf.SuperframeConf.GetCarrierId | helper/satellite-frame-conf.cc:183-196 | for a frame id at most the number of frames, the loop returns the local id plus the carrier counts of all earlier frames |
| SatelliteFrameConf.SuperframeConf.GetCarrierFrequency | helper/satellite-frame-conf.cc:198-217 | when the first frame has a carrier and the id is below the total, the scan terminates in range and returns the bandwidth of the owner's preceding frames plus the owner's local frequency at the remainder |
| SatelliteFrameConf.SuperframeConf.GetCarrierBandwidth | helper/satellite-frame-conf.cc:219-234 | when the first frame has a carrier and the id is below the total, the scan returns the carrier bandwidth of the frame that owns the id; when the first frame has none, the unsigned `count - 1` wraps, the scan is skipped and the first frame's carrier bandwidth is returned |
| SatelliteFrameConf.OwnerFrom | helper/satellite-frame-conf.cc:206-212 | the scan from frame k stops at a frame f >= k whose carrier range [before(f), before(f+1)) contains the id |
| SatelliteFrameConf.OwnerFrame | helper/satellite-frame-conf.cc:203-212 | the owner of an id below the total is a frame of the superframe |
| SatelliteFrameConf.CarrierIdOf | helper/satellite-frame-conf.cc:183-196 | reference definition of the global carrier id: the local id plus the carrier counts of all frames before the given one (its properties are GetCarrierId, CarrierIdRoundTrip and GlobalIdRoundTrip) |
| SatelliteFrameConf.GlobalCarrierFrequency | helper/satellite-frame-conf.cc:198-217 | reference definition of the value the frequency scan returns: the bandwidth of the frames before the owner plus the owner's local centre frequency at the remainder (its properties are GetCarrierFrequency, GlobalFrequencyAgrees, GlobalFrequencyInFrameBand and GlobalFrequencyIncreasing) |
| SatelliteFrameConf.GlobalCarrierBandwidth | helper/satellite-frame-conf.cc:219-234 | reference definition of the value the bandwidth scan returns: the carrier bandwidth of the frame owning the id (its properties are GetCarrierBandwidth and GlobalBandwidthAgrees) |
| SatelliteFrameConf.CarriersBeforeMonotone | helper/satellite-frame-conf.cc:188-193 | the running carrier total never decreases along the frame list |
| SatelliteFrameConf.BandwidthBeforeMonotone | helper/satellite-frame-conf.cc:209 | the running bandwidth total never decreases along the frame list |
| SatelliteFrameConf.OwnerFromFinds | helper/satellite-frame-conf.cc:206-212 | a scan started at or before the frame whose range holds the id finds exactly that frame |
| SatelliteFrameConf.OwnerFrameUnique | helper/satellite-frame-conf.cc:198-212 | a frame whose carrier range holds the id is its owner, so the owner is unique |
| SatelliteFrameConf.CarrierIdRoundTrip | helper/satellite-frame-conf.cc:183-212 | from a (frame, local carrier) pair to the global id and back by the scan gives the same frame and the same local id |
| SatelliteFrameConf.GlobalIdRoundTrip | helper/satellite-frame-conf.cc:183-212 | from a global id to (owner, remainder) and back gives the same global id, with the remainder below the owner's carrier count |
| SatelliteFrameConf.GlobalFrequencyAgrees | helper/satellite-frame-conf.cc:198-217 | the frequency found through the global id of (f, l) is frame f's lower band edge plus its local frequency of l |
| SatelliteFrameConf.GlobalBandwidthAgrees | helper/satellite-frame-conf.cc:219-234 | the bandwidth found through the global id of (f, l) is frame f's carrier bandwidth |
| SatelliteFrameConf.GlobalFrequencyInFrameBand | helper/satellite-frame-conf.cc:198-217 | a global carrier's frequency lies strictly inside its owner frame's band of the superframe |
| SatelliteFrameConf.OwnerMonotone | helper/satellite-frame-conf.cc:206-212 | a larger global id never has an earlier owner frame |
| SatelliteFrameConf.GlobalFrequencyIncreasing | helper/satellite-frame-conf.cc:198-217 | global centre frequencies are strictly increasing in the global id, so no two carriers share one |
| SatelliteUtMac.SameFramePrefix | model/satellite-ut-mac.cc:256-270 | the length of the longest prefix of the slots that all carry the first slot's frame id; the next slot, if any, carries another |
| SatelliteUtMac.UtMac.constructor | model/satellite-ut-mac.cc:104-119 | a new MAC has an empty schedule, an empty TBTP container and an empty random-access registry |
| SatelliteUtMac.UtMac.TimeSlotsPlan | model/satellite-ut-mac.cc:227-288 | reference definition of what one TBTP does: a stale one adds nothing and is fatal; otherwise the superframe start and one opportunity per slot up to the first slot of another frame, which is fatal (its properties are the lemmas below) |
| SatelliteUtMac.UtMac.SlotEvent | model/satellite-ut-mac.cc:272-287 | reference definition of one slot's opportunity: delay start delay + slot start time, the waveform's burst duration at the frame's symbol rate and its payload, on the global id of the slot's carrier (its properties are SlotTxOpportunity and ScheduledCarrierResolves) |
| SatelliteUtMac.UtMac.SlotEvents | model/satellite-ut-mac.cc:259-288 | reference definition of the opportunities of a slot list: one SlotEvent per slot, in message order (its properties are SlotEventsAt and ScheduleDaSlots) |
| SatelliteUtMac.UtMac.StaleTbtpRejected | model/satellite-ut-mac.cc:227-240 | a TBTP whose transmit time is before now is fatal and schedules nothing |
| SatelliteUtMac.UtMac.MixedFramesRejected | model/satellite-ut-mac.cc:256-270 | a timely TBTP with a slot for this UT in a frame other than the first slot's is fatal |
| SatelliteUtMac.UtMac.TimelyTbtpScheduled | model/satellite-ut-mac.cc:227-288 | a timely single-frame TBTP succeeds with start delay txTime - now >= 0; it schedules the superframe start at that delay and then, in message order, exactly one opportunity per slot, with delay start delay + slot offset, the waveform's duration and payload, and the slot carrier's global id |
| SatelliteUtMac.UtMac.NoSlotsOnlySuperframeStart | model/satellite-ut-mac.cc:243-252 | a timely TBTP without slots for this UT schedules only the superframe start |
| SatelliteUtMac.UtMac.ScheduledCarrierResolves | model/satellite-ut-mac.cc:285 | the carrier of a scheduled opportunity is a valid global id, and the superframe scan maps it back to the slot's frame and local carrier |
| SatelliteUtMac.UtMac.SlotEventsAt | model/satellite-ut-mac.cc:259-288 | the k-th of the scheduled opportunities is the one of the k-th slot, and there is one per slot |
| SatelliteUtMac.UtMac.ScheduleTimeSlots | model/satellite-ut-mac.cc:216-290 | the TBTP is recorded with its transmit time, read once from one timing advance; the schedule grows by exactly the events of the TBTP's plan (stale: none; otherwise the superframe start and the opportunities up to the first mixed frame id); the result is the plan's outcome; the registry is unchanged |
| SatelliteUtMac.UtMac.ScheduleDaSlots | model/satellite-ut-mac.cc:256-288 | the loop appends one opportunity per slot of the same-frame prefix, in order, and fails exactly when a slot of another frame follows |
| SatelliteUtMac.UtMac.SlotTxOpportunity | model/satellite-ut-mac.cc:272-285 | the looked-up slot yields the opportunity at start delay + slot offset, with the waveform's duration and payload, on the global id of the slot's carrier |
| SatelliteUtMac.UtMac.ScheduleTxOpportunity | model/satellite-ut-mac.cc:303-309 | exactly one transmit event with the given delay, duration, payload and carrier is appended, and nothing else changes |
| SatelliteUtMac.Collect | model/satellite-ut-mac.cc:342-381 | reference definition of the fill: ask for PDUs while room is left, stop at the NULL packet, and fail on a PDU larger than the room left (its properties are CollectOk and CollectErr) |
| SatelliteUtMac.CollectOk | model/satellite-ut-mac.cc:337-381 | a successful fill is a prefix of the queue's answers whose total fits the budget; before each collected PDU some room was left, so it stops at the first answer that uses the budget up; it stops only when the budget is used up exactly or the queue returns NULL |
| SatelliteUtMac.CollectErr | model/satellite-ut-mac.cc:372-380 | the fill is fatal exactly when the running total of the answers jumps from below the budget to above it at some answer |
| SatelliteUtMac.UtMac.Transmit | model/satellite-ut-mac.cc:311-398 | given payload > header size, the loop keeps (sum of collected PDUs) + payloadLeft = payload - header and collects exactly Collect's PDUs; an oversized PDU is fatal; one burst of those PDUs is sent on the carrier, with the slot duration less the guard time, exactly when at least one PDU was collected |
| SatelliteUtMac.PrunePast | model/satellite-ut-mac.cc:665-682 | reference definition of the pruning: the registry restricted to the keys whose frame id is not below the current one (its properties are PrunePastExact) |
| SatelliteUtMac.RegisterSlots | model/satellite-ut-mac.cc:592-621 | reference definition of one insertion: a new key gets the given set, an existing key the union, and an id already present is fatal |
| SatelliteUtMac.UpdateRegistry | model/satellite-ut-mac.cc:581-664 | reference definition of one registry update: prune past frames, then insert under (current frame, channel) (its properties are UpdateRegistryOk and UpdateRegistryErr) |
| SatelliteUtMac.PrunePastExact | model/satellite-ut-mac.cc:665-682 | pruning drops exactly the keys whose frame id is below the current one, keeps all other entries unchanged, and is idempotent |
| SatelliteUtMac.UpdateRegistryOk | model/satellite-ut-mac.cc:581-664 | after a successful update no past frame remains, the current key holds its old slots (none for a new key) plus the given ones, and every other entry is as before |
| SatelliteUtMac.UpdateRegistryErr | model/satellite-ut-mac.cc:581-664 | an update fails exactly when the current key already holds one of the given slot ids |
| SatelliteUtMac.RegisterTwiceFails | model/satellite-ut-mac.cc:624-664 | registering the same slot twice in the same frame and channel makes the second registration fatal |
| SatelliteUtMac.UtMac.RemovePastRandomAccessSlots | model/satellite-ut-mac.cc:665-682 | the erase loop leaves exactly the pruned registry, and nothing else changes |
| SatelliteUtMac.UtMac.UpdateUsedRandomAccessSlots | model/satellite-ut-mac.cc:624-664 | the registry becomes the successful update of one slot id, or the update's error is returned with the registry pruned |
| SatelliteUtMac.UtMac.UpdateUsedRandomAccessSlotsCrdsa | model/satellite-ut-mac.cc:581-622 | the set-insert loop gives the registry of a successful update of the CRDSA slot set, or returns the update's error |
| SatelliteUtMac.UtMac.FindNextAvailableRandomAccessSlot | model/satellite-ut-mac.cc:558-570 | the slot search registers the given used slot for the channel, with the same outcome as a one-slot update |
| SatelliteUtMac.UtMac.ScheduleCrdsaTransmission | model/satellite-ut-mac.cc:572-579 | the CRDSA transmission registers the answer's slot set, with the same outcome as a CRDSA update |
| SatelliteUtMac.RandomAccessEffect | model/satellite-ut-mac.cc:529-546 | reference definition of processing the algorithm's answer: a slotted ALOHA answer schedules a slot search for the drawn channel after its offset, a CRDSA answer updates the registry with its slot set, and no answer changes nothing (its properties are SlottedAlohaSchedulesSearch, DoRandomAccess and ReceiveQueueEvent) |
| SatelliteUtMac.SlottedAlohaSchedulesSearch | model/satellite-ut-mac.cc:529-537 | a slotted ALOHA answer schedules exactly one slot search for the channel, after its offset in milliseconds, and leaves the registry alone |
| SatelliteUtMac.UtMac.DoRandomAccess | model/satellite-ut-mac.cc:520-547 | for any drawn channel, including the one past the last that the inclusive draw can return, the algorithm's answer on that channel decides the effect: a slotted ALOHA answer schedules a slot search, a CRDSA answer updates the registry, and no answer does nothing |
| SatelliteUtMac.AllocationChannels | model/satellite-ut-mac.cc:549-556 | the logical random-access channels are exactly 0 .. count - 1, so there are count of them |
| SatelliteUtMac.DrawAsWrittenIncludesMissingChannel | model/satellite-ut-mac.cc:549-556 | the inclusive draw can return the channel numbered count, which does not exist, and draws among count + 1 values |
| SatelliteUtMac.UtMac.ReceiveQueueEvent | model/satellite-ut-mac.cc:400-417 | for any drawn channel, random access with the slotted ALOHA trigger runs exactly for a buffered-packet event of queue 0 when an algorithm is set; otherwise nothing changes |
| SatelliteUtMac.DispatchReceived | model/satellite-ut-mac.cc:434-481 | a missing MAC tag is fatal; a packet for this UT, a broadcast or a group goes to signalling without its MAC tag when it carries a control type, is fatal when it carries the non-control type, and goes to the upper layer when it has no control tag and is not a broadcast; each case holds in both directions |
| SatelliteUtMac.UtMac.Receive | model/satellite-ut-mac.cc:419-483 | the container succeeds exactly when every packet dispatches; it then yields one delivery per packet, in order; otherwise the error of the first fatal packet is returned |
| SatelliteUtMac.UtMac.ReceiveSignalingPacket | model/satellite-ut-mac.cc:485-518 | a TBTP control message is fetched by id, a miss is fatal, and a hit is scheduled as ScheduleTimeSlots does; every other control type is fatal and schedules nothing |

## Left out

- Integer widths: all counters and ids are unbounded. The `uint8_t` loop counter of `GetCarrierCount` wraps from 255 to 0, so with 256 or more frames the source loop never ends; the model's loop always ends with the sum. `GetCarrierId` takes an 8-bit frame id and a 16-bit local carrier id, `GetFrameConf` an 8-bit index (helper/satellite-frame-conf.cc:163) and `GetTimeSlotConf` a 16-bit slot index, and `ScheduleTimeSlots` keeps the first slot's frame id in an 8-bit variable (model/satellite-ut-mac.cc:256); the model takes any natural number and does not truncate a wider value. The 32-bit carrier ids and counts do not wrap here either.
- SatelliteFrameConf.SuperframeConf.GetCarrierFrequency: requires that the first frame has at least one carrier. With zero carriers, the source's unsigned `count - 1` wraps, the scan is skipped, and frame 0's local lookup with that id fails its own assertion (helper/satellite-frame-conf.cc:102), so the case is a precondition here.
- Floating point: bandwidths are whole hertz, and frequencies are exact reals. The source's `double` division in the carrier count is modelled as the integer quotient, which is what storing it in an unsigned field gives. Slot start times and burst durations are `double` seconds that the source converts to `Time` (model/satellite-ut-mac.cc:277, :282, :391); here they are integer ticks given directly, so the rounding of those conversions is not modelled.
- The frame's `GetCarrierBandwidth_hz` and `GetBandwidth_hz` accessors are in a header that is not part of this model. They are taken to be the BTU bandwidth and the frame bandwidth.
- The superframe sequence is not part of this model. Superframe 0 stands for `GetSuperframeConf (0)`, and the sequence's `GetCarrierId (0, …)` is that superframe's `GetCarrierId`.
- `GetSuperFrameTxTimeWithCount`, the waveform table, `GetBurstDurationInSeconds` and the timing-advance callback are not part of this model; they are function fields and parameters.
- SatelliteUtMac.UtMac.ScheduleTimeSlots: requires that every slot it looks up refers to an existing frame and time slot. The source indexes these without a check, apart from the slot-index assertion.
- `SatTbtpContainer` is a list of (transmit time, TBTP) pairs that only grows. Its storage time and its `HasScheduledTimeSlots` are not part of this model.
- `SuperFrameStart` and the slot search of `FindNextAvailableRandomAccessSlot` are empty stubs in the source. Only their scheduling, and the search's registry update, are modelled.
- The current frame id and the used slot id are parameters. The source uses placeholders for them.
- SatelliteUtMac.UtMac.Transmit: the queue callback is a finite sequence of its successive answers, and its end is the NULL packet. The answers therefore do not depend on the room offered. The buffered-bytes output and the requester address are not modelled, and `SendPacket` is the returned burst.
- SatelliteUtMac.UtMac.UpdateUsedRandomAccessSlotsCrdsa: does not state the registry after a fatal duplicate. The source has already inserted some of the set by then.
- SatelliteUtMac.UtMac.DoRandomAccess: takes the drawn channel as a parameter and accepts any value, including the channel one past the last that the inclusive draw can return (see Findings). The uniform random draw itself is not modelled; its range is `AllocationChannelDrawAsWritten`.
- SatelliteUtMac.UtMac.Receive: returns the deliveries instead of calling `ReceiveSignalingPacket` and the receive callback during the loop. The packet trace and the physical-layer parameters are left out.
- The source constructor's default header size (1 byte) and guard time (1 µs) are attributes. Here they are constructor parameters.
- Logging, packet tracing, `GetTypeId` and attributes, `DoDispose` and the setters are not modelled, as none of them affects the scheduling logic.

## Findings

| source | as written | input that shows it | evidently intended | confidence | as-written member | corrected member |
|---|---|---|---|---|---|---|
| model/satellite-ut-mac.cc:549-556 | the allocation channel is drawn with `GetInteger (0, RaServiceCount)`, whose bounds are both inclusive | RaServiceCount = 1: the draw can return 1, and there is no channel 1 | draw among the channels 0 .. RaServiceCount - 1 | not executed | SatelliteUtMac.DrawAsWrittenIncludesMissingChannel | SatelliteUtMac.AllocationChannels |
