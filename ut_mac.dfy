/**
 * The user-terminal (UT) return-link MAC: turning TBTP allocation messages
 * into timed transmit events, filling a transmit opportunity from the
 * link-layer queue, the random-access (RA) slot registry, and the dispatch of
 * received packets and queue events.
 *
 * The discrete-event simulator is the field `events`: scheduling an action
 * appends (delay, event) to it. Every fatal error of the source is an `Err`
 * result. Callbacks whose code lies outside this model (timing advance, link
 * layer queue, control message store, waveform table, random-access
 * algorithm, random channel draw) are inputs: parameters or constant fields.
 */
module SatelliteUtMac {
  import opened Wrappers
  import opened SatelliteFrameConf

  /** Simulator ticks (nanoseconds) per millisecond. */
  const TicksPerMs: nat := 1_000_000

  /** The fatal errors of the UT MAC. */
  datatype MacError =
    | StaleTbtp            // the superframe of a TBTP should already have been sent
    | MixedFrameIds        // one UT's slots in one TBTP come from different frames
    | PduTooBig            // the queue returned a PDU larger than the space left
    | DuplicateRaSlot      // an RA slot id is already registered for its key
    | MissingMacTag        // received packet without a MAC tag
    | InvalidCtrlMsgType   // control tag carrying the non-control type
    | TbtpNotFound         // control message store no longer holds the TBTP
    | UnsupportedCtrlMsg   // RA, CR or unknown control message at the UT

  // ---------------------------------------------------------------------
  // Addresses, following the IEEE 802 conventions of 48-bit MAC addresses.

  type Mac48 = s: seq<bv8> | |s| == 6 witness [0, 0, 0, 0, 0, 0]

  predicate IsBroadcast(a: Mac48)
  {
    forall i | 0 <= i < 6 :: a[i] == 0xff
  }

  /** Group (multicast) bit: the least significant bit of the first octet. */
  predicate IsGroup(a: Mac48)
  {
    a[0] & 1 == 1
  }

  // ---------------------------------------------------------------------
  // TBTP messages and scheduled events.

  /** A dedicated-access (DA) slot assignment: frame id and slot index in that frame. */
  datatype DaSlot = DaSlot(frameId: nat, slotIndex: nat)

  /** Terminal burst time plan: superframe sequence and counter, and the DA slots per terminal. */
  datatype Tbtp = Tbtp(superframeSeqId: nat, superframeCounter: nat, daSlots: map<Mac48, seq<DaSlot>>)

  /** The DA slots of one terminal, in message order; none when the terminal is not listed. */
  function DaTimeSlots(tbtp: Tbtp, address: Mac48): seq<DaSlot>
  {
    if address in tbtp.daSlots then tbtp.daSlots[address] else []
  }

  datatype Event =
    | SuperFrameStart(superframeSeqId: nat)
    | TxOpportunity(duration: Time, payloadBytes: nat, carrierId: nat)
    | FindRandomAccessSlot(allocationChannel: nat)

  /** An event handed to the simulator, to fire `delay` ticks from now. */
  datatype Scheduled = Scheduled(delay: Time, event: Event)

  /** Events a TBTP adds to the schedule and the outcome of processing it. */
  datatype SchedulePlan = SchedulePlan(scheduled: seq<Scheduled>, outcome: Result<(), MacError>)

  /**
   * Length of the longest prefix of `slots` whose frame ids all equal the
   * first slot's: the slots the source processes before a mixed frame id.
   */
  function SameFramePrefix(slots: seq<DaSlot>): (n: nat)
    ensures n <= |slots|
    ensures forall k | 0 <= k < n :: slots[k].frameId == slots[0].frameId
    ensures n < |slots| ==> slots[n].frameId != slots[0].frameId
  {
    SameFrameFrom(slots, 0)
  }

  function SameFrameFrom(slots: seq<DaSlot>, i: nat): (n: nat)
    requires i <= |slots|
    requires forall k | 0 <= k < i :: slots[k].frameId == slots[0].frameId
    ensures i <= n <= |slots|
    ensures forall k | 0 <= k < n :: slots[k].frameId == slots[0].frameId
    ensures n < |slots| ==> slots[n].frameId != slots[0].frameId
    decreases |slots| - i
  {
    if i == |slots| || slots[i].frameId != slots[0].frameId then i else SameFrameFrom(slots, i + 1)
  }

  // ---------------------------------------------------------------------
  // Filling a transmit opportunity.

  function Sum(s: seq<nat>): nat
  {
    if s == [] then 0 else Sum(s[..|s| - 1]) + s[|s| - 1]
  }

  /** Prefix `ps` to a successful result; an error stays the error. */
  function Prepend(ps: seq<nat>, r: Result<seq<nat>, MacError>): Result<seq<nat>, MacError>
  {
    match r
    case Ok(rest) => Ok(ps + rest)
    case Err(e) => Err(e)
  }

  lemma PrependEmpty(r: Result<seq<nat>, MacError>)
    ensures Prepend([], r) == r
  {
    if r.Ok? {
      assert [] + r.value == r.value;
    }
  }

  lemma PrependAssoc(a: seq<nat>, b: seq<nat>, r: Result<seq<nat>, MacError>)
    ensures Prepend(a, Prepend(b, r)) == Prepend(a + b, r)
  {
    if r.Ok? {
      assert a + (b + r.value) == (a + b) + r.value;
    }
  }

  lemma SumSnoc(s: seq<nat>, x: nat)
    ensures Sum(s + [x]) == Sum(s) + x
  {
    assert (s + [x])[..|s|] == s;
  }

  /**
   * The PDUs collected from the queue's answers `queue` (the end of the
   * sequence is the NULL packet) with `payloadLeft` bytes of room: collect
   * until the room is used up or the queue has nothing more; a PDU larger
   * than the room left is fatal.
   */
  function Collect(queue: seq<nat>, payloadLeft: nat): Result<seq<nat>, MacError>
    decreases |queue|
  {
    if payloadLeft == 0 || queue == [] then Ok([])
    else if queue[0] > payloadLeft then Err(PduTooBig)
    else Prepend([queue[0]], Collect(queue[1..], payloadLeft - queue[0]))
  }

  /** A burst handed to the physical layer: the PDU sizes, the carrier and the duration. */
  datatype Burst = Burst(pdus: seq<nat>, carrierId: nat, duration: Time)

  lemma {:induction false} SumCons(x: nat, s: seq<nat>)
    ensures Sum([x] + s) == x + Sum(s)
    decreases |s|
  {
    if s != [] {
      assert ([x] + s)[..|[x] + s| - 1] == [x] + s[..|s| - 1];
      SumCons(x, s[..|s| - 1]);
    }
  }

  /**
   * A successful fill is a prefix of the queue's answers that fits the room,
   * asks for each PDU only while room is left, and stops only because the
   * room is used up exactly or the queue returned NULL.
   */
  lemma {:induction false} CollectOk(queue: seq<nat>, payloadLeft: nat)
    requires Collect(queue, payloadLeft).Ok?
    ensures var ps := Collect(queue, payloadLeft).value;
      |ps| <= |queue| && ps == queue[..|ps|] && Sum(ps) <= payloadLeft &&
      (forall j | 0 <= j < |ps| :: Sum(ps[..j]) < payloadLeft) &&
      (|ps| == |queue| || Sum(ps) == payloadLeft)
    decreases |queue|
  {
    if payloadLeft != 0 && queue != [] {
      var x, rest := queue[0], queue[1..];
      var left: nat := payloadLeft - x;
      var ps' := Collect(rest, left).value;
      CollectOk(rest, left);
      SumCons(x, ps');
      var ps := [x] + ps';
      assert Collect(queue, payloadLeft).value == ps;
      assert ps == queue[..|ps'| + 1];
      forall j | 0 <= j < |ps|
        ensures Sum(ps[..j]) < payloadLeft
      {
        if j > 0 {
          assert ps[..j] == [x] + ps'[..j - 1];
          SumCons(x, ps'[..j - 1]);
        }
      }
    }
  }

  /** The running total of the queue's answers passes the room at answer k: below it before, above it after. */
  predicate Overshoots(queue: seq<nat>, payloadLeft: nat, k: nat)
  {
    k < |queue| && Sum(queue[..k]) < payloadLeft < Sum(queue[..k + 1])
  }

  lemma SumShift(queue: seq<nat>, k: nat)
    requires k < |queue|
    ensures Sum(queue[..k + 1]) == queue[0] + Sum(queue[1..][..k])
  {
    assert queue[..k + 1] == [queue[0]] + queue[1..][..k];
    SumCons(queue[0], queue[1..][..k]);
  }

  /** The fill fails exactly when the running total of the answers jumps over the room. */
  lemma {:induction false} CollectErr(queue: seq<nat>, payloadLeft: nat)
    ensures Collect(queue, payloadLeft).Err? <==> exists k :: Overshoots(queue, payloadLeft, k)
    decreases |queue|
  {
    if queue == [] || payloadLeft == 0 {
      forall k ensures !Overshoots(queue, payloadLeft, k) { }
    } else {
      var x, rest := queue[0], queue[1..];
      SumShift(queue, 0);
      if x > payloadLeft {
        assert Overshoots(queue, payloadLeft, 0);
      } else {
        var left: nat := payloadLeft - x;
        CollectErr(rest, left);
        forall k: nat ensures Overshoots(queue, payloadLeft, k + 1) <==> Overshoots(rest, left, k) {
          if k + 1 < |queue| {
            SumShift(queue, k);
            SumShift(queue, k + 1);
          }
        }
        if Collect(queue, payloadLeft).Err? {
          var k: nat :| Overshoots(rest, left, k);
          assert Overshoots(queue, payloadLeft, k + 1);
        } else {
          forall k: nat ensures !Overshoots(queue, payloadLeft, k) {
            if k > 0 {
              var j: nat := k - 1;
              assert Overshoots(queue, payloadLeft, j + 1) <==> Overshoots(rest, left, j);
            }
          }
        }
      }
    }
  }

  // ---------------------------------------------------------------------
  // Random-access slot registry: (frame id, channel) to the slot ids used.

  datatype RaKey = RaKey(frameId: nat, channel: nat)

  type RaRegistry = map<RaKey, set<nat>>

  /** The registry without the entries of frames older than `currentFrameId`. */
  function PrunePast(m: RaRegistry, currentFrameId: nat): RaRegistry
  {
    map k | k in m && k.frameId >= currentFrameId :: m[k]
  }

  /** Record slot ids under a key: a new key gets the set, an existing one the union, a repeat is fatal. */
  function RegisterSlots(m: RaRegistry, key: RaKey, slotIds: set<nat>): Result<RaRegistry, MacError>
  {
    if key !in m then Ok(m[key := slotIds])
    else if m[key] * slotIds != {} then Err(DuplicateRaSlot)
    else Ok(m[key := m[key] + slotIds])
  }

  /** One registry update: prune past frames first, then register under (current frame, channel). */
  function UpdateRegistry(m: RaRegistry, currentFrameId: nat, channel: nat, slotIds: set<nat>): Result<RaRegistry, MacError>
  {
    RegisterSlots(PrunePast(m, currentFrameId), RaKey(currentFrameId, channel), slotIds)
  }

  /** Pruning drops exactly the keys of past frames and keeps every other entry as it was. */
  lemma PrunePastExact(m: RaRegistry, currentFrameId: nat)
    ensures forall k :: k in PrunePast(m, currentFrameId) <==> k in m && k.frameId >= currentFrameId
    ensures forall k | k in PrunePast(m, currentFrameId) :: PrunePast(m, currentFrameId)[k] == m[k]
    ensures PrunePast(PrunePast(m, currentFrameId), currentFrameId) == PrunePast(m, currentFrameId)
  {
  }

  /**
   * After a successful update no frame older than the current one remains,
   * the key (current frame, channel) holds the old slots of that key plus the
   * new ones, and every other current or future entry is unchanged.
   */
  lemma UpdateRegistryOk(m: RaRegistry, currentFrameId: nat, channel: nat, slotIds: set<nat>)
    requires UpdateRegistry(m, currentFrameId, channel, slotIds).Ok?
    ensures var m', key := UpdateRegistry(m, currentFrameId, channel, slotIds).value, RaKey(currentFrameId, channel);
      && (forall k | k in m' :: k.frameId >= currentFrameId)
      && key in m'
      && m'[key] == (if key in m then m[key] else {}) + slotIds
      && (forall k | k in m && k.frameId >= currentFrameId && k != key :: k in m' && m'[k] == m[k])
      && (forall k | k in m' && k != key :: k in m && m'[k] == m[k])
  {
  }

  /** An update fails exactly when one of the slot ids is already registered under its key. */
  lemma UpdateRegistryErr(m: RaRegistry, currentFrameId: nat, channel: nat, slotIds: set<nat>)
    ensures var key := RaKey(currentFrameId, channel);
      UpdateRegistry(m, currentFrameId, channel, slotIds).Err? <==> key in m && m[key] * slotIds != {}
  {
    var key := RaKey(currentFrameId, channel);
    assert key in m <==> key in PrunePast(m, currentFrameId);
  }

  /** Registering the same slot twice in the same frame and channel fails the second time. */
  lemma RegisterTwiceFails(m: RaRegistry, currentFrameId: nat, channel: nat, slotId: nat)
    requires UpdateRegistry(m, currentFrameId, channel, {slotId}).Ok?
    ensures UpdateRegistry(UpdateRegistry(m, currentFrameId, channel, {slotId}).value, currentFrameId, channel, {slotId})
         == Err(DuplicateRaSlot)
  {
    var m' := UpdateRegistry(m, currentFrameId, channel, {slotId}).value;
    UpdateRegistryOk(m, currentFrameId, channel, {slotId});
    UpdateRegistryErr(m', currentFrameId, channel, {slotId});
    assert slotId in m'[RaKey(currentFrameId, channel)] * {slotId};
  }

  // ---------------------------------------------------------------------
  // Random-access decisions.

  datatype RaTrigger = SlottedAlohaTrigger | CrdsaTrigger

  /** The random-access algorithm's answer. */
  datatype RaTxOpportunities =
    | SlottedAloha(offsetMs: nat)                   // search a free slot after this many milliseconds
    | Crdsa(channel: nat, slotIds: set<nat>)        // use these slots in this channel
    | NoTxOpportunity

  /** What processing a random-access answer does: events added and the registry update. */
  datatype RaEffect = RaEffect(scheduled: seq<Scheduled>, registry: Result<RaRegistry, MacError>)

  function RandomAccessEffect(opportunities: RaTxOpportunities, allocationChannel: nat,
                              currentFrameId: nat, m: RaRegistry): RaEffect
  {
    match opportunities
    case SlottedAloha(offsetMs) =>
      RaEffect([Scheduled(offsetMs * TicksPerMs, FindRandomAccessSlot(allocationChannel))], Ok(m))
    case Crdsa(channel, slotIds) => RaEffect([], UpdateRegistry(m, currentFrameId, channel, slotIds))
    case NoTxOpportunity => RaEffect([], Ok(m))
  }

  /** A slotted ALOHA answer schedules exactly one slot search and leaves the registry alone. */
  lemma SlottedAlohaSchedulesSearch(offsetMs: nat, allocationChannel: nat, currentFrameId: nat, m: RaRegistry)
    ensures var e := RandomAccessEffect(SlottedAloha(offsetMs), allocationChannel, currentFrameId, m);
      e.registry == Ok(m) && |e.scheduled| == 1 &&
      e.scheduled[0].delay == offsetMs * TicksPerMs && e.scheduled[0].delay >= 0 &&
      e.scheduled[0].event == FindRandomAccessSlot(allocationChannel)
  {
  }

  /** The logical RA channels: 0 .. count - 1. */
  function AllocationChannels(raServiceCount: nat): (s: set<nat>)
    ensures forall c: nat :: c in s <==> c < raServiceCount
    ensures |s| == raServiceCount
  {
    if raServiceCount == 0 then {}
    else
      var fewer := AllocationChannels(raServiceCount - 1);
      assert raServiceCount - 1 !in fewer;
      fewer + {raServiceCount - 1}
  }

  /** The integers lo .. hi with both bounds included: the range of the simulator's uniform integer draw. */
  function InclusiveRange(lo: nat, hi: nat): (s: set<nat>)
    ensures forall c :: c in s <==> lo <= c <= hi
    decreases hi
  {
    if hi < lo then {} else if hi == lo then {lo} else InclusiveRange(lo, hi - 1) + {hi}
  }

  /** The values the source's channel draw can return: the integers 0 .. count. */
  function AllocationChannelDrawAsWritten(raServiceCount: nat): set<nat>
  {
    InclusiveRange(0, raServiceCount)
  }

  /** The draw as written can return a channel one past the last one, and draws among count + 1 values. */
  lemma DrawAsWrittenIncludesMissingChannel(raServiceCount: nat)
    ensures raServiceCount in AllocationChannelDrawAsWritten(raServiceCount)
    ensures raServiceCount !in AllocationChannels(raServiceCount)
    ensures AllocationChannelDrawAsWritten(raServiceCount) == AllocationChannels(raServiceCount + 1)
    ensures |AllocationChannelDrawAsWritten(raServiceCount)| == raServiceCount + 1
  {
    assert AllocationChannelDrawAsWritten(raServiceCount) == AllocationChannels(raServiceCount + 1);
  }

  // ---------------------------------------------------------------------
  // Received packets.

  datatype MacTag = MacTag(source: Mac48, dest: Mac48)

  datatype CtrlMsgType = NonCtrlMsg | TbtpCtrlMsg | RaCtrlMsg | CrCtrlMsg | OtherCtrlMsg(code: nat)

  datatype CtrlMsgTag = CtrlMsgTag(msgType: CtrlMsgType, msgId: nat)

  /** A received packet: its size and the tags it carries. */
  datatype Packet = Packet(size: nat, macTag: Option<MacTag>, ctrlTag: Option<CtrlMsgTag>)

  /** Where a received packet goes. */
  datatype Delivery =
    | ToSignaling(packet: Packet, tag: CtrlMsgTag)   // control message, MAC tag removed
    | ToUpperLayer(packet: Packet, dest: Mac48)       // user data to the LLC
    | Dropped                                         // not for this UT, or a broadcast without control tag

  predicate AddressedTo(dest: Mac48, me: Mac48)
  {
    dest == me || IsBroadcast(dest) || IsGroup(dest)
  }

  /** Dispatch of one received packet at terminal `me`. */
  function DispatchReceived(p: Packet, me: Mac48): (r: Result<Delivery, MacError>)
    ensures r == Err(MissingMacTag) <==> p.macTag.None?
    ensures r == Err(InvalidCtrlMsgType) <==>
      p.macTag.Some? && AddressedTo(p.macTag.value.dest, me) && p.ctrlTag.Some? && p.ctrlTag.value.msgType == NonCtrlMsg
    ensures r.Ok? && r.value.ToSignaling? <==>
      p.macTag.Some? && AddressedTo(p.macTag.value.dest, me) && p.ctrlTag.Some? && p.ctrlTag.value.msgType != NonCtrlMsg
    ensures r.Ok? && r.value.ToSignaling? ==> r.value == ToSignaling(p.(macTag := None), p.ctrlTag.value)
    ensures r.Ok? && r.value.ToUpperLayer? <==>
      p.macTag.Some? && AddressedTo(p.macTag.value.dest, me) && p.ctrlTag.None? && !IsBroadcast(p.macTag.value.dest)
    ensures r.Ok? && r.value.ToUpperLayer? ==> r.value == ToUpperLayer(p, p.macTag.value.dest)
  {
    if p.macTag.None? then Err(MissingMacTag)
    else
      var dest := p.macTag.value.dest;
      if !AddressedTo(dest, me) then Ok(Dropped)
      else if p.ctrlTag.Some? then
        if p.ctrlTag.value.msgType != NonCtrlMsg then Ok(ToSignaling(p.(macTag := None), p.ctrlTag.value))
        else Err(InvalidCtrlMsgType)
      else if IsBroadcast(dest) then Ok(Dropped)
      else Ok(ToUpperLayer(p, dest))
  }

  /** The queue events that announce buffered data. */
  datatype QueueEvent = FirstBufferedPkt | BufferedPkt | OtherQueueEvent(code: nat)

  // ---------------------------------------------------------------------

  class UtMac {
    /** The shared, read-only frame geometry (superframe 0 of the sequence). */
    const superframe: SuperframeConf
    const address: Mac48
    const framePduHeaderSize: nat
    const guardTime: Time
    const raServiceCount: nat
    /** Payload capacity in bytes of a waveform. */
    const waveformPayload: nat -> nat
    /** Burst duration of a waveform at a symbol rate. */
    const burstDuration: (nat, nat) -> Time
    /** Transmit time of the superframe with this sequence id and counter, under this timing advance. */
    const superframeTxTime: (nat, nat, Time) -> Time
    /** The random-access algorithm, when one is set: (channel, trigger) to its answer. */
    const randomAccess: Option<(nat, RaTrigger) -> RaTxOpportunities>

    /** The simulator's schedule, in scheduling order. */
    var events: seq<Scheduled>
    /** The TBTP container: messages recorded with their transmit time. */
    var tbtps: seq<(Time, Tbtp)>
    var usedRandomAccessSlots: RaRegistry

    constructor (superframe: SuperframeConf, address: Mac48, framePduHeaderSize: nat, guardTime: Time,
                 raServiceCount: nat, waveformPayload: nat -> nat, burstDuration: (nat, nat) -> Time,
                 superframeTxTime: (nat, nat, Time) -> Time,
                 randomAccess: Option<(nat, RaTrigger) -> RaTxOpportunities>)
      ensures this.superframe == superframe && this.address == address
      ensures this.framePduHeaderSize == framePduHeaderSize && this.guardTime == guardTime
      ensures this.raServiceCount == raServiceCount
      ensures this.waveformPayload == waveformPayload && this.burstDuration == burstDuration
      ensures this.superframeTxTime == superframeTxTime && this.randomAccess == randomAccess
      ensures events == [] && tbtps == [] && usedRandomAccessSlots == map[]
    {
      this.superframe := superframe;
      this.address := address;
      this.framePduHeaderSize := framePduHeaderSize;
      this.guardTime := guardTime;
      this.raServiceCount := raServiceCount;
      this.waveformPayload := waveformPayload;
      this.burstDuration := burstDuration;
      this.superframeTxTime := superframeTxTime;
      this.randomAccess := randomAccess;
      events := [];
      tbtps := [];
      usedRandomAccessSlots := map[];
    }

    // -------------------------------------------------------------------
    // Reference definitions for TBTP scheduling.

    /** A DA slot names a frame of the superframe and a slot of that frame. */
    predicate Resolvable(slot: DaSlot)
      reads superframe, superframe.frames
    {
      slot.frameId < |superframe.frames| && slot.slotIndex < |superframe.frames[slot.frameId].timeSlots|
    }

    /** The slots the source looks up: those before the first slot of another frame. */
    predicate SlotsResolvable(slots: seq<DaSlot>)
      reads superframe, superframe.frames
    {
      forall k | 0 <= k < SameFramePrefix(slots) :: Resolvable(slots[k])
    }

    function TxTime(tbtp: Tbtp, timingAdvance: Time): Time
    {
      superframeTxTime(tbtp.superframeSeqId, tbtp.superframeCounter, timingAdvance)
    }

    /** The transmit opportunity of one DA slot, `startDelay` being the delay to the superframe start. */
    function SlotEvent(slot: DaSlot, startDelay: Time): Scheduled
      reads superframe, superframe.frames
      requires Resolvable(slot)
    {
      var frame := superframe.frames[slot.frameId];
      var timeSlot := frame.timeSlots[slot.slotIndex];
      Scheduled(startDelay + timeSlot.startTime,
                TxOpportunity(burstDuration(timeSlot.waveFormId, frame.btu.symbolRateBaud),
                              waveformPayload(timeSlot.waveFormId),
                              CarrierIdOf(superframe.frames, slot.frameId, timeSlot.frameCarrierId)))
    }

    function SlotEvents(slots: seq<DaSlot>, startDelay: Time): seq<Scheduled>
      reads superframe, superframe.frames
      requires forall k | 0 <= k < |slots| :: Resolvable(slots[k])
    {
      if slots == [] then []
      else SlotEvents(slots[..|slots| - 1], startDelay) + [SlotEvent(slots[|slots| - 1], startDelay)]
    }

    /**
     * What one TBTP does to the schedule: a stale one is fatal and adds
     * nothing; otherwise the superframe start, then one transmit opportunity
     * per slot of this terminal up to the first slot of another frame, which
     * is fatal.
     */
    function TimeSlotsPlan(tbtp: Tbtp, now: Time, timingAdvance: Time): SchedulePlan
      reads superframe, superframe.frames
      requires TxTime(tbtp, timingAdvance) >= now ==> SlotsResolvable(DaTimeSlots(tbtp, address))
    {
      var txTime := TxTime(tbtp, timingAdvance);
      if txTime < now then SchedulePlan([], Err(StaleTbtp))
      else
        var slots := DaTimeSlots(tbtp, address);
        var n := SameFramePrefix(slots);
        SchedulePlan([Scheduled(txTime - now, SuperFrameStart(tbtp.superframeSeqId))] + SlotEvents(slots[..n], txTime - now),
                     if n == |slots| then Ok(()) else Err(MixedFrameIds))
    }

    lemma {:induction false} SlotEventsAt(slots: seq<DaSlot>, startDelay: Time, k: nat)
      requires forall j | 0 <= j < |slots| :: Resolvable(slots[j])
      requires k < |slots|
      ensures |SlotEvents(slots, startDelay)| == |slots|
      ensures SlotEvents(slots, startDelay)[k] == SlotEvent(slots[k], startDelay)
      decreases |slots|
    {
      var init := slots[..|slots| - 1];
      if k < |init| {
        SlotEventsAt(init, startDelay, k);
      } else if init != [] {
        SlotEventsAt(init, startDelay, 0);
      }
    }

    /** Each slot of a resolvable list yields its own opportunity, position for position. */
    lemma SlotEventsAll(slots: seq<DaSlot>, startDelay: Time)
      requires forall j | 0 <= j < |slots| :: Resolvable(slots[j])
      ensures |SlotEvents(slots, startDelay)| == |slots|
      ensures forall k | 0 <= k < |slots| :: SlotEvents(slots, startDelay)[k] == SlotEvent(slots[k], startDelay)
    {
      forall k | 0 <= k < |slots|
        ensures |SlotEvents(slots, startDelay)| == |slots|
        ensures SlotEvents(slots, startDelay)[k] == SlotEvent(slots[k], startDelay)
      {
        SlotEventsAt(slots, startDelay, k);
      }
      if slots == [] {
        assert SlotEvents(slots, startDelay) == [];
      }
    }

    /** A TBTP whose superframe should already have been sent is fatal and schedules nothing. */
    lemma StaleTbtpRejected(tbtp: Tbtp, now: Time, timingAdvance: Time)
      requires TxTime(tbtp, timingAdvance) < now
      ensures TimeSlotsPlan(tbtp, now, timingAdvance) == SchedulePlan([], Err(StaleTbtp))
    {
    }

    /** Slots of one terminal from two different frames are fatal. */
    lemma MixedFramesRejected(tbtp: Tbtp, now: Time, timingAdvance: Time, j: nat)
      requires TxTime(tbtp, timingAdvance) >= now ==> SlotsResolvable(DaTimeSlots(tbtp, address))
      requires TxTime(tbtp, timingAdvance) >= now
      requires j < |DaTimeSlots(tbtp, address)|
      requires DaTimeSlots(tbtp, address)[j].frameId != DaTimeSlots(tbtp, address)[0].frameId
      ensures TimeSlotsPlan(tbtp, now, timingAdvance).outcome == Err(MixedFrameIds)
    {
    }

    /**
     * A timely TBTP whose slots for this terminal share one frame schedules
     * the superframe start at the start delay txTime - now >= 0 and then, in
     * message order, exactly one transmit opportunity per slot, at the start
     * delay plus the slot's start offset, on the global id of the slot's
     * carrier in that frame.
     */
    lemma TimelyTbtpScheduled(tbtp: Tbtp, now: Time, timingAdvance: Time)
      requires TxTime(tbtp, timingAdvance) >= now
      requires var slots := DaTimeSlots(tbtp, address);
        forall k | 0 <= k < |slots| :: slots[k].frameId == slots[0].frameId && Resolvable(slots[k])
      ensures var plan, slots, startDelay :=
          TimeSlotsPlan(tbtp, now, timingAdvance), DaTimeSlots(tbtp, address), TxTime(tbtp, timingAdvance) - now;
        && plan.outcome == Ok(())
        && startDelay >= 0
        && |plan.scheduled| == |slots| + 1
        && plan.scheduled[0] == Scheduled(startDelay, SuperFrameStart(tbtp.superframeSeqId))
        && forall k | 0 <= k < |slots| ::
             var frame := superframe.frames[slots[0].frameId];
             var timeSlot := frame.timeSlots[slots[k].slotIndex];
             plan.scheduled[k + 1] ==
               Scheduled(startDelay + timeSlot.startTime,
                         TxOpportunity(burstDuration(timeSlot.waveFormId, frame.btu.symbolRateBaud),
                                       waveformPayload(timeSlot.waveFormId),
                                       CarrierIdOf(superframe.frames, slots[0].frameId, timeSlot.frameCarrierId)))
    {
      var slots, startDelay := DaTimeSlots(tbtp, address), TxTime(tbtp, timingAdvance) - now;
      var n := SameFramePrefix(slots);
      assert n == |slots|;
      assert slots[..n] == slots;
      if slots != [] {
        SlotEventsAt(slots, startDelay, 0);
      }
      forall k | 0 <= k < |slots|
        ensures SlotEvents(slots, startDelay)[k] == SlotEvent(slots[k], startDelay)
      {
        SlotEventsAt(slots, startDelay, k);
      }
    }

    /** A TBTP without slots for this terminal schedules only the superframe start. */
    lemma NoSlotsOnlySuperframeStart(tbtp: Tbtp, now: Time, timingAdvance: Time)
      requires TxTime(tbtp, timingAdvance) >= now
      requires DaTimeSlots(tbtp, address) == []
      ensures TimeSlotsPlan(tbtp, now, timingAdvance) ==
        SchedulePlan([Scheduled(TxTime(tbtp, timingAdvance) - now, SuperFrameStart(tbtp.superframeSeqId))], Ok(()))
    {
    }

    /**
     * The carrier of every scheduled opportunity resolves back, through the
     * superframe's scan, to the slot's frame and local carrier.
     */
    lemma ScheduledCarrierResolves(slot: DaSlot, startDelay: Time)
      requires Resolvable(slot)
      requires superframe.frames[slot.frameId].timeSlots[slot.slotIndex].frameCarrierId
             < superframe.frames[slot.frameId].carrierCount
      ensures var c := SlotEvent(slot, startDelay).event.carrierId;
        c < TotalCarriers(superframe.frames) &&
        OwnerFrame(superframe.frames, c) == slot.frameId &&
        c - CarriersBefore(superframe.frames, slot.frameId)
          == superframe.frames[slot.frameId].timeSlots[slot.slotIndex].frameCarrierId
    {
      CarrierIdRoundTrip(superframe.frames, slot.frameId,
                         superframe.frames[slot.frameId].timeSlots[slot.slotIndex].frameCarrierId);
    }

    // -------------------------------------------------------------------
    // Scheduling.

    /**
     * Process a TBTP: compute its transmit time once from the single timing
     * advance, record it, reject it when stale, schedule the superframe start
     * and one transmit opportunity per DA slot of this terminal.
     */
    method ScheduleTimeSlots(tbtp: Tbtp, now: Time, timingAdvance: Time) returns (r: Result<(), MacError>)
      requires TxTime(tbtp, timingAdvance) >= now ==> SlotsResolvable(DaTimeSlots(tbtp, address))
      modifies this
      ensures var plan := TimeSlotsPlan(tbtp, now, timingAdvance);
        events == old(events) + plan.scheduled && r == plan.outcome
      ensures tbtps == old(tbtps) + [(TxTime(tbtp, timingAdvance), tbtp)]
      ensures usedRandomAccessSlots == old(usedRandomAccessSlots)
    {
      var txTime := superframeTxTime(tbtp.superframeSeqId, tbtp.superframeCounter, timingAdvance);
      var startDelay := txTime - now;
      tbtps := tbtps + [(txTime, tbtp)];
      if txTime < now {
        return Err(StaleTbtp);
      }
      var start := Scheduled(startDelay, SuperFrameStart(tbtp.superframeSeqId));
      events := events + [start];
      var slots := DaTimeSlots(tbtp, address);
      r := ScheduleDaSlots(slots, startDelay);
      ghost var added := SlotEvents(slots[..SameFramePrefix(slots)], startDelay);
      assert events == old(events) + ([start] + added);
    }

    /**
     * The loop over one terminal's DA slots: one transmit opportunity per
     * slot, in order, until a slot of another frame than the first, which is
     * fatal.
     */
    method ScheduleDaSlots(slots: seq<DaSlot>, startDelay: Time) returns (r: Result<(), MacError>)
      requires SlotsResolvable(slots)
      modifies this
      ensures var n := SameFramePrefix(slots);
        && events == old(events) + SlotEvents(slots[..n], startDelay)
        && r == (if n == |slots| then Ok(()) else Err(MixedFrameIds))
      ensures tbtps == old(tbtps) && usedRandomAccessSlots == old(usedRandomAccessSlots)
    {
      ghost var n := SameFramePrefix(slots);
      ghost var expected := SlotEvents(slots[..n], startDelay);
      SlotEventsAll(slots[..n], startDelay);
      var frameId: nat := 0;
      var i := 0;
      while i < |slots|
        invariant i <= n
        invariant i > 0 ==> frameId == slots[0].frameId
        invariant events == old(events) + expected[..i]
        invariant tbtps == old(tbtps) && usedRandomAccessSlots == old(usedRandomAccessSlots)
      {
        if i == 0 {
          frameId := slots[i].frameId;
        } else if frameId != slots[i].frameId {
          assert i == n;
          return Err(MixedFrameIds);
        }
        assert i < n && slots[..n][i] == DaSlot(frameId, slots[i].slotIndex);
        assert expected[..i + 1] == expected[..i] + [expected[i]];
        var opportunity := SlotTxOpportunity(frameId, slots[i].slotIndex, startDelay);
        assert opportunity == expected[i];
        ScheduleTxOpportunity(opportunity.delay, opportunity.event.duration,
                              opportunity.event.payloadBytes, opportunity.event.carrierId);
        i := i + 1;
      }
      assert expected[..i] == expected;
      r := Ok(());
    }

    /**
     * The transmit opportunity of slot `slotIndex` of frame `frameId`: its
     * start from the superframe start, its burst duration from the waveform
     * and the frame's symbol rate, its payload from the waveform and its
     * carrier as a global id of the superframe.
     */
    method SlotTxOpportunity(frameId: nat, slotIndex: nat, startDelay: Time) returns (s: Scheduled)
      requires Resolvable(DaSlot(frameId, slotIndex))
      ensures s == SlotEvent(DaSlot(frameId, slotIndex), startDelay)
      ensures s.event.TxOpportunity?
    {
      var frameConf := superframe.GetFrameConf(frameId);
      var timeSlotConf := frameConf.GetTimeSlotConf(slotIndex);
      var duration := burstDuration(timeSlotConf.waveFormId, frameConf.btu.symbolRateBaud);
      var carrierId := superframe.GetCarrierId(frameId, timeSlotConf.frameCarrierId);
      s := Scheduled(startDelay + timeSlotConf.startTime,
                     TxOpportunity(duration, waveformPayload(timeSlotConf.waveFormId), carrierId));
    }

    method ScheduleTxOpportunity(transmitDelay: Time, duration: Time, payloadBytes: nat, carrierId: nat)
      modifies this
      ensures events == old(events) + [Scheduled(transmitDelay, TxOpportunity(duration, payloadBytes, carrierId))]
      ensures tbtps == old(tbtps) && usedRandomAccessSlots == old(usedRandomAccessSlots)
    {
      events := events + [Scheduled(transmitDelay, TxOpportunity(duration, payloadBytes, carrierId))];
    }

    /**
     * A transmit opportunity: fill the payload, less the frame PDU header,
     * with PDUs from the queue (its successive answers; the end of `queue` is
     * its NULL packet). Send one burst, shortened by the guard time, when at
     * least one PDU was collected; send nothing otherwise.
     */
    method Transmit(duration: Time, payloadBytes: nat, carrierId: nat, queue: seq<nat>)
      returns (r: Result<Option<Burst>, MacError>)
      requires payloadBytes > framePduHeaderSize
      ensures match Collect(queue, payloadBytes - framePduHeaderSize)
        case Err(e) => r == Err(e)
        case Ok(pdus) => r == Ok(if pdus == [] then None else Some(Burst(pdus, carrierId, duration - guardTime)))
    {
      ghost var budget: nat := payloadBytes - framePduHeaderSize;
      var payloadLeft: nat := payloadBytes - framePduHeaderSize;
      var packets: seq<nat> := [];
      var calls := 0;
      PrependEmpty(Collect(queue, budget));
      while payloadLeft > 0
        invariant calls <= |queue| && packets == queue[..calls]
        invariant Sum(packets) + payloadLeft == budget
        invariant Collect(queue, budget) == Prepend(packets, Collect(queue[calls..], payloadLeft))
        decreases |queue| - calls
      {
        if calls == |queue| {
          break;
        }
        var p := queue[calls];
        assert queue[calls..][1..] == queue[calls + 1..];
        if payloadLeft < p {
          assert Collect(queue[calls..], payloadLeft) == Err(PduTooBig);
          return Err(PduTooBig);
        }
        PrependAssoc(packets, [p], Collect(queue[calls + 1..], payloadLeft - p));
        assert queue[..calls + 1] == packets + [p];
        SumSnoc(packets, p);
        calls := calls + 1;
        packets := packets + [p];
        payloadLeft := payloadLeft - p;
      }
      assert packets + [] == packets;
      if packets != [] {
        r := Ok(Some(Burst(packets, carrierId, duration - guardTime)));
      } else {
        r := Ok(None);
      }
    }

    // -------------------------------------------------------------------
    // Random-access slot registry.

    method RemovePastRandomAccessSlots(currentFrameId: nat)
      modifies this
      ensures usedRandomAccessSlots == PrunePast(old(usedRandomAccessSlots), currentFrameId)
      ensures events == old(events) && tbtps == old(tbtps)
    {
      ghost var m0 := usedRandomAccessSlots;
      var unvisited := usedRandomAccessSlots.Keys;
      while unvisited != {}
        invariant unvisited <= m0.Keys
        invariant usedRandomAccessSlots == map k | k in m0 && (k in unvisited || k.frameId >= currentFrameId) :: m0[k]
        invariant events == old(events) && tbtps == old(tbtps)
        decreases unvisited
      {
        var key :| key in unvisited;
        if key.frameId < currentFrameId {
          usedRandomAccessSlots := usedRandomAccessSlots - {key};
        }
        unvisited := unvisited - {key};
      }
    }

    /** Register one used RA slot in the current frame. */
    method UpdateUsedRandomAccessSlots(currentFrameId: nat, allocationChannel: nat, slotId: nat)
      returns (r: Result<(), MacError>)
      modifies this
      ensures var u := UpdateRegistry(old(usedRandomAccessSlots), currentFrameId, allocationChannel, {slotId});
        && (u.Ok? ==> r == Ok(()) && usedRandomAccessSlots == u.value)
        && (u.Err? ==> r == Err(u.error) && usedRandomAccessSlots == PrunePast(old(usedRandomAccessSlots), currentFrameId))
      ensures events == old(events) && tbtps == old(tbtps)
    {
      RemovePastRandomAccessSlots(currentFrameId);
      ghost var pruned := usedRandomAccessSlots;
      var key := RaKey(currentFrameId, allocationChannel);
      if key !in usedRandomAccessSlots {
        usedRandomAccessSlots := usedRandomAccessSlots[key := {slotId}];
        r := Ok(());
      } else if slotId in usedRandomAccessSlots[key] {
        assert slotId in pruned[key] * {slotId};
        assert RegisterSlots(pruned, key, {slotId}) == Err(DuplicateRaSlot);
        r := Err(DuplicateRaSlot);
      } else {
        assert pruned[key] * {slotId} == {};
        assert RegisterSlots(pruned, key, {slotId}) == Ok(pruned[key := pruned[key] + {slotId}]);
        usedRandomAccessSlots := usedRandomAccessSlots[key := usedRandomAccessSlots[key] + {slotId}];
        r := Ok(());
      }
    }

    /** Register the slots of a CRDSA answer, in its channel, in the current frame. */
    method UpdateUsedRandomAccessSlotsCrdsa(currentFrameId: nat, channel: nat, slotIds: set<nat>)
      returns (r: Result<(), MacError>)
      modifies this
      ensures var u := UpdateRegistry(old(usedRandomAccessSlots), currentFrameId, channel, slotIds);
        && (u.Ok? ==> r == Ok(()) && usedRandomAccessSlots == u.value)
        && (u.Err? ==> r == Err(u.error))
      ensures events == old(events) && tbtps == old(tbtps)
    {
      RemovePastRandomAccessSlots(currentFrameId);
      ghost var pruned := usedRandomAccessSlots;
      var key := RaKey(currentFrameId, channel);
      if key !in usedRandomAccessSlots {
        usedRandomAccessSlots := usedRandomAccessSlots[key := slotIds];
        return Ok(());
      }
      var rest := slotIds;
      assert slotIds - rest == {};
      assert pruned[key] + {} == pruned[key];
      assert pruned[key := pruned[key] + {}] == pruned;
      while rest != {}
        invariant rest <= slotIds
        invariant pruned[key] * (slotIds - rest) == {}
        invariant usedRandomAccessSlots == pruned[key := pruned[key] + (slotIds - rest)]
        invariant events == old(events) && tbtps == old(tbtps)
        decreases rest
      {
        var id :| id in rest;
        if id in usedRandomAccessSlots[key] {
          assert id in pruned[key] * slotIds;
          return Err(DuplicateRaSlot);
        }
        assert slotIds - (rest - {id}) == (slotIds - rest) + {id};
        assert usedRandomAccessSlots[key] + {id} == pruned[key] + ((slotIds - rest) + {id});
        usedRandomAccessSlots := usedRandomAccessSlots[key := usedRandomAccessSlots[key] + {id}];
        rest := rest - {id};
      }
      assert slotIds - rest == slotIds;
      r := Ok(());
    }

    /** Slot search after a slotted ALOHA answer: only its registry update is modelled. */
    method FindNextAvailableRandomAccessSlot(currentFrameId: nat, allocationChannel: nat, usedSlot: nat)
      returns (r: Result<(), MacError>)
      modifies this
      ensures var u := UpdateRegistry(old(usedRandomAccessSlots), currentFrameId, allocationChannel, {usedSlot});
        && (u.Ok? ==> r == Ok(()) && usedRandomAccessSlots == u.value)
        && (u.Err? ==> r == Err(u.error) && usedRandomAccessSlots == PrunePast(old(usedRandomAccessSlots), currentFrameId))
      ensures events == old(events) && tbtps == old(tbtps)
    {
      r := UpdateUsedRandomAccessSlots(currentFrameId, allocationChannel, usedSlot);
    }

    /** CRDSA transmission: only its registry update is modelled. */
    method ScheduleCrdsaTransmission(currentFrameId: nat, channel: nat, slotIds: set<nat>)
      returns (r: Result<(), MacError>)
      modifies this
      ensures var u := UpdateRegistry(old(usedRandomAccessSlots), currentFrameId, channel, slotIds);
        && (u.Ok? ==> r == Ok(()) && usedRandomAccessSlots == u.value)
        && (u.Err? ==> r == Err(u.error))
      ensures events == old(events) && tbtps == old(tbtps)
    {
      r := UpdateUsedRandomAccessSlotsCrdsa(currentFrameId, channel, slotIds);
    }

    /**
     * Run the random-access algorithm on the drawn channel and act on its
     * answer: schedule a slot search, or register the CRDSA slots.
     */
    method DoRandomAccess(trigger: RaTrigger, allocationChannel: nat, currentFrameId: nat)
      returns (r: Result<(), MacError>)
      requires randomAccess.Some?
      modifies this
      ensures var e := RandomAccessEffect(randomAccess.value(allocationChannel, trigger), allocationChannel,
                                          currentFrameId, old(usedRandomAccessSlots));
        && events == old(events) + e.scheduled
        && (e.registry.Ok? ==> r == Ok(()) && usedRandomAccessSlots == e.registry.value)
        && (e.registry.Err? ==> r == Err(e.registry.error))
      ensures tbtps == old(tbtps)
    {
      var txOpportunities := randomAccess.value(allocationChannel, trigger);
      match txOpportunities {
        case SlottedAloha(offsetMs) =>
          events := events + [Scheduled(offsetMs * TicksPerMs, FindRandomAccessSlot(allocationChannel))];
          r := Ok(());
        case Crdsa(channel, slotIds) =>
          r := ScheduleCrdsaTransmission(currentFrameId, channel, slotIds);
        case NoTxOpportunity =>
          r := Ok(());
      }
    }

    /** Buffered data in the first queue starts slotted ALOHA random access, when one is set. */
    method ReceiveQueueEvent(event: QueueEvent, rcIndex: nat, allocationChannel: nat, currentFrameId: nat)
      returns (r: Result<(), MacError>)
      modifies this
      ensures var triggers := rcIndex == 0 && (event == FirstBufferedPkt || event == BufferedPkt) && randomAccess.Some?;
        && (!triggers ==> r == Ok(()) && events == old(events) && usedRandomAccessSlots == old(usedRandomAccessSlots))
        && (triggers ==>
              var e := RandomAccessEffect(randomAccess.value(allocationChannel, SlottedAlohaTrigger), allocationChannel,
                                          currentFrameId, old(usedRandomAccessSlots));
              && events == old(events) + e.scheduled
              && (e.registry.Ok? ==> r == Ok(()) && usedRandomAccessSlots == e.registry.value)
              && (e.registry.Err? ==> r == Err(e.registry.error)))
      ensures tbtps == old(tbtps)
    {
      r := Ok(());
      if rcIndex == 0 {
        if event == FirstBufferedPkt || event == BufferedPkt {
          if randomAccess.Some? {
            r := DoRandomAccess(SlottedAlohaTrigger, allocationChannel, currentFrameId);
          }
        }
      }
    }

    // -------------------------------------------------------------------
    // Reception.

    /**
     * Dispatch a received packet container: every packet goes where its tags
     * send it, and the first packet whose tags are fatal stops the dispatch.
     */
    method Receive(packets: seq<Packet>) returns (r: Result<seq<Delivery>, MacError>)
      ensures r.Ok? <==> forall i | 0 <= i < |packets| :: DispatchReceived(packets[i], address).Ok?
      ensures r.Ok? ==> (|r.value| == |packets| &&
        forall i | 0 <= i < |packets| :: DispatchReceived(packets[i], address) == Ok(r.value[i]))
      ensures r.Err? ==> exists i | 0 <= i < |packets| ::
        DispatchReceived(packets[i], address) == Err(r.error) &&
        forall j | 0 <= j < i :: DispatchReceived(packets[j], address).Ok?
    {
      var deliveries: seq<Delivery> := [];
      for i := 0 to |packets|
        invariant |deliveries| == i
        invariant forall j | 0 <= j < i :: DispatchReceived(packets[j], address) == Ok(deliveries[j])
      {
        var d := DispatchReceived(packets[i], address);
        if d.Err? {
          return Err(d.error);
        }
        deliveries := deliveries + [d.value];
      }
      r := Ok(deliveries);
    }

    /**
     * A control message: a TBTP is fetched from the control message store
     * by its id (a miss is fatal) and scheduled; every other type is fatal.
     */
    method ReceiveSignalingPacket(tag: CtrlMsgTag, ctrlStore: map<nat, Tbtp>, now: Time, timingAdvance: Time)
      returns (r: Result<(), MacError>)
      requires (tag.msgType == TbtpCtrlMsg && tag.msgId in ctrlStore &&
                TxTime(ctrlStore[tag.msgId], timingAdvance) >= now) ==>
        SlotsResolvable(DaTimeSlots(ctrlStore[tag.msgId], address))
      modifies this
      ensures tag.msgType != TbtpCtrlMsg ==>
        r == Err(UnsupportedCtrlMsg) && events == old(events) && tbtps == old(tbtps)
      ensures tag.msgType == TbtpCtrlMsg && tag.msgId !in ctrlStore ==>
        r == Err(TbtpNotFound) && events == old(events) && tbtps == old(tbtps)
      ensures tag.msgType == TbtpCtrlMsg && tag.msgId in ctrlStore ==>
        var tbtp := ctrlStore[tag.msgId];
        var plan := TimeSlotsPlan(tbtp, now, timingAdvance);
        events == old(events) + plan.scheduled && r == plan.outcome &&
        tbtps == old(tbtps) + [(TxTime(tbtp, timingAdvance), tbtp)]
      ensures usedRandomAccessSlots == old(usedRandomAccessSlots)
    {
      match tag.msgType {
        case TbtpCtrlMsg =>
          if tag.msgId !in ctrlStore {
            return Err(TbtpNotFound);
          }
          r := ScheduleTimeSlots(ctrlStore[tag.msgId], now, timingAdvance);
        case _ =>
          r := Err(UnsupportedCtrlMsg);
      }
    }
  }
}
