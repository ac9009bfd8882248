/**
 * Return-link frame geometry: the elementary transmission unit (BTU), time
 * slots, frames of identical carriers and the superframe that orders frames.
 *
 * Bandwidths are whole hertz and carrier centre frequencies exact reals;
 * times are integer simulator ticks.  Carriers are numbered per frame
 * (local ids) and, across the superframe, by a flat global id that renumbers
 * the frames' carriers contiguously in frame order.
 */
module SatelliteFrameConf {

  /** A positive quantity; the BTU bandwidth divides the frame bandwidth. */
  type Pos = n: nat | n > 0 witness 1

  /** Simulator time, in ticks. */
  type Time = int

  /** Elementary transmission unit: bandwidth, length and symbol rate. */
  datatype BtuConf = BtuConf(bandwidthHz: Pos, length: Time, symbolRateBaud: nat)

  /** One time slot of a frame: start offset within the frame, duration, waveform and local carrier. */
  datatype TimeSlotConf = TimeSlotConf(startTime: Time, duration: Time, waveFormId: nat, frameCarrierId: nat)

  /** A band of `carrierCount` identical carriers, each as wide as the BTU, with its time slots. */
  class FrameConf {
    const bandwidthHz: nat
    const duration: Time
    const btu: BtuConf
    /** Integer quotient, as the source stores the floating-point quotient in an unsigned field. */
    const carrierCount: nat := bandwidthHz / btu.bandwidthHz
    var timeSlots: seq<TimeSlotConf>

    /** A missing slot vector (a null pointer in the source) is the empty sequence here. */
    constructor (bandwidthHz: nat, duration: Time, btu: BtuConf, timeSlots: seq<TimeSlotConf>)
      ensures this.bandwidthHz == bandwidthHz && this.duration == duration && this.btu == btu
      ensures this.timeSlots == timeSlots
      ensures carrierCount * btu.bandwidthHz <= bandwidthHz < (carrierCount + 1) * btu.bandwidthHz
    {
      this.bandwidthHz := bandwidthHz;
      this.duration := duration;
      this.btu := btu;
      this.timeSlots := timeSlots;
      new;
      CarriersFitFrame(this);
    }

    /** Bandwidth of each carrier of the frame: the BTU bandwidth. */
    function CarrierBandwidth(): Pos
    {
      btu.bandwidthHz
    }

    /** Centre frequency of local carrier `carrierId`, relative to the frame's lower band edge. */
    function CarrierFrequency(carrierId: nat): (f: real)
      requires carrierId < carrierCount
      ensures (CarrierBandwidth() * carrierId) as real < f < (CarrierBandwidth() * (carrierId + 1)) as real
    {
      assert btu.bandwidthHz * (carrierId + 1) == btu.bandwidthHz * carrierId + btu.bandwidthHz;
      (btu.bandwidthHz * carrierId) as real + (btu.bandwidthHz as real) / 2.0
    }

    /** Bounds-checked slot lookup (an assertion in the source). */
    function GetTimeSlotConf(index: nat): TimeSlotConf
      reads this
      requires index < |timeSlots|
    {
      timeSlots[index]
    }

    method AddTimeSlotConf(conf: TimeSlotConf)
      modifies this
      ensures timeSlots == old(timeSlots) + [conf]
      ensures GetTimeSlotConf(|old(timeSlots)|) == conf
      ensures forall i :: 0 <= i < |old(timeSlots)| ==> GetTimeSlotConf(i) == old(timeSlots)[i]
    {
      timeSlots := timeSlots + [conf];
    }
  }

  /** The carriers of a frame fill its band without exceeding it; less than one carrier width is left over. */
  lemma CarriersFitFrame(frame: FrameConf)
    ensures frame.carrierCount * frame.btu.bandwidthHz <= frame.bandwidthHz
    ensures frame.bandwidthHz < (frame.carrierCount + 1) * frame.btu.bandwidthHz
  {
    var w, n := frame.btu.bandwidthHz, frame.carrierCount;
    assert frame.bandwidthHz == n * w + frame.bandwidthHz % w;
  }

  /** The centre of local carrier c, inside its own slice of the band, lies inside the frame band. */
  lemma CarrierFrequencyInBand(frame: FrameConf, c: nat)
    requires c < frame.carrierCount
    ensures 0.0 < frame.CarrierFrequency(c) < frame.bandwidthHz as real
  {
    var w := frame.btu.bandwidthHz;
    CarriersFitFrame(frame);
    MulMonotone(w, c + 1, frame.carrierCount);
  }

  /** Centre frequencies grow strictly with the local carrier id. */
  lemma CarrierFrequencyIncreasing(frame: FrameConf, c1: nat, c2: nat)
    requires c1 < c2 < frame.carrierCount
    ensures frame.CarrierFrequency(c1) < frame.CarrierFrequency(c2)
  {
    var w := frame.btu.bandwidthHz;
    MulMonotone(w, c1 + 1, c2);
    assert w * (c1 + 1) == w * c1 + w;
  }

  lemma MulMonotone(w: nat, a: nat, b: nat)
    requires a <= b
    ensures w * a <= w * b
  {
    assert w * b == w * a + w * (b - a);
  }

  // ---------------------------------------------------------------------
  // Reference definitions over the superframe's frame list.

  /** Number of carriers in frames 0 .. k-1. */
  function CarriersBefore(frames: seq<FrameConf>, k: nat): nat
    requires k <= |frames|
  {
    if k == 0 then 0 else CarriersBefore(frames, k - 1) + frames[k - 1].carrierCount
  }

  /** Sum of the bandwidths of frames 0 .. k-1: the lower band edge of frame k. */
  function BandwidthBefore(frames: seq<FrameConf>, k: nat): nat
    requires k <= |frames|
  {
    if k == 0 then 0 else BandwidthBefore(frames, k - 1) + frames[k - 1].bandwidthHz
  }

  function TotalCarriers(frames: seq<FrameConf>): nat
  {
    CarriersBefore(frames, |frames|)
  }

  /** Global carrier id of local carrier `local` of frame `frameId`. */
  function CarrierIdOf(frames: seq<FrameConf>, frameId: nat, local: nat): nat
    requires frameId <= |frames|
  {
    CarriersBefore(frames, frameId) + local
  }

  /**
   * The frame owning global carrier id g, scanning from frame k onwards:
   * the first frame whose running carrier total exceeds g.
   */
  function OwnerFrom(frames: seq<FrameConf>, g: nat, k: nat): (f: nat)
    requires k < |frames|
    requires CarriersBefore(frames, k) <= g < TotalCarriers(frames)
    ensures k <= f < |frames|
    ensures CarriersBefore(frames, f) <= g < CarriersBefore(frames, f + 1)
    decreases |frames| - k
  {
    if g < CarriersBefore(frames, k + 1) then k else OwnerFrom(frames, g, k + 1)
  }

  function OwnerFrame(frames: seq<FrameConf>, g: nat): (f: nat)
    requires g < TotalCarriers(frames)
    ensures f < |frames|
  {
    OwnerFrom(frames, g, 0)
  }

  /** Centre frequency of global carrier g: its frame's lower edge plus the frame-local frequency. */
  function GlobalCarrierFrequency(frames: seq<FrameConf>, g: nat): real
    requires g < TotalCarriers(frames)
  {
    var f := OwnerFrame(frames, g);
    BandwidthBefore(frames, f) as real + frames[f].CarrierFrequency(g - CarriersBefore(frames, f))
  }

  function GlobalCarrierBandwidth(frames: seq<FrameConf>, g: nat): Pos
    requires g < TotalCarriers(frames)
  {
    frames[OwnerFrame(frames, g)].CarrierBandwidth()
  }

  // ---------------------------------------------------------------------
  // Properties of the global numbering.

  lemma {:induction false} CarriersBeforeMonotone(frames: seq<FrameConf>, i: nat, j: nat)
    requires i <= j <= |frames|
    ensures CarriersBefore(frames, i) <= CarriersBefore(frames, j)
  {
    if i < j {
      CarriersBeforeMonotone(frames, i, j - 1);
    }
  }

  lemma {:induction false} BandwidthBeforeMonotone(frames: seq<FrameConf>, i: nat, j: nat)
    requires i <= j <= |frames|
    ensures BandwidthBefore(frames, i) <= BandwidthBefore(frames, j)
  {
    if i < j {
      BandwidthBeforeMonotone(frames, i, j - 1);
    }
  }

  /** The scan from any frame k at or before the owner finds the owner. */
  lemma {:induction false} OwnerFromFinds(frames: seq<FrameConf>, g: nat, k: nat, f: nat)
    requires k <= f < |frames|
    requires CarriersBefore(frames, k) <= g
    requires CarriersBefore(frames, f) <= g < CarriersBefore(frames, f + 1)
    ensures g < TotalCarriers(frames)
    ensures OwnerFrom(frames, g, k) == f
    decreases f - k
  {
    CarriersBeforeMonotone(frames, f + 1, |frames|);
    if k < f {
      CarriersBeforeMonotone(frames, k + 1, f);
      OwnerFromFinds(frames, g, k + 1, f);
    }
  }

  /** A frame whose carrier range contains g is its owner: the owner is unique. */
  lemma OwnerFrameUnique(frames: seq<FrameConf>, g: nat, f: nat)
    requires f < |frames|
    requires CarriersBefore(frames, f) <= g < CarriersBefore(frames, f + 1)
    ensures g < TotalCarriers(frames)
    ensures OwnerFrame(frames, g) == f
  {
    OwnerFromFinds(frames, g, 0, f);
  }

  /**
   * Round trip from (frame, local carrier) to the global id and back: the
   * scan recovers the same frame and the same local id.
   */
  lemma CarrierIdRoundTrip(frames: seq<FrameConf>, f: nat, local: nat)
    requires f < |frames| && local < frames[f].carrierCount
    ensures CarrierIdOf(frames, f, local) < TotalCarriers(frames)
    ensures OwnerFrame(frames, CarrierIdOf(frames, f, local)) == f
    ensures CarrierIdOf(frames, f, local) - CarriersBefore(frames, f) == local
  {
    OwnerFrameUnique(frames, CarrierIdOf(frames, f, local), f);
  }

  /** Round trip from a global id to (owner, remainder) and back to the same global id. */
  lemma GlobalIdRoundTrip(frames: seq<FrameConf>, g: nat)
    requires g < TotalCarriers(frames)
    ensures var f := OwnerFrame(frames, g);
      g - CarriersBefore(frames, f) < frames[f].carrierCount &&
      CarrierIdOf(frames, f, g - CarriersBefore(frames, f)) == g
  {
  }

  /** The frequency resolved through the global id equals the one resolved through the owning frame. */
  lemma GlobalFrequencyAgrees(frames: seq<FrameConf>, f: nat, local: nat)
    requires f < |frames| && local < frames[f].carrierCount
    ensures CarrierIdOf(frames, f, local) < TotalCarriers(frames)
    ensures GlobalCarrierFrequency(frames, CarrierIdOf(frames, f, local))
         == BandwidthBefore(frames, f) as real + frames[f].CarrierFrequency(local)
  {
    CarrierIdRoundTrip(frames, f, local);
    FrequencyOfOwner(frames, CarrierIdOf(frames, f, local), f, local);
  }

  /** The global frequency, once the owner and the remainder of g are known. */
  lemma FrequencyOfOwner(frames: seq<FrameConf>, g: nat, f: nat, local: nat)
    requires g < TotalCarriers(frames) && f < |frames| && OwnerFrame(frames, g) == f
    requires g - CarriersBefore(frames, f) == local && local < frames[f].carrierCount
    ensures GlobalCarrierFrequency(frames, g) == BandwidthBefore(frames, f) as real + frames[f].CarrierFrequency(local)
  {
  }

  /** The bandwidth resolved through the global id equals the owning frame's carrier bandwidth. */
  lemma GlobalBandwidthAgrees(frames: seq<FrameConf>, f: nat, local: nat)
    requires f < |frames| && local < frames[f].carrierCount
    ensures CarrierIdOf(frames, f, local) < TotalCarriers(frames)
    ensures GlobalCarrierBandwidth(frames, CarrierIdOf(frames, f, local)) == frames[f].CarrierBandwidth()
  {
    CarrierIdRoundTrip(frames, f, local);
  }

  /** Global carrier g lies strictly inside the band of its owning frame. */
  lemma GlobalFrequencyInFrameBand(frames: seq<FrameConf>, g: nat)
    requires g < TotalCarriers(frames)
    ensures var f := OwnerFrame(frames, g);
      BandwidthBefore(frames, f) as real < GlobalCarrierFrequency(frames, g) < BandwidthBefore(frames, f + 1) as real
  {
    var f := OwnerFrame(frames, g);
    CarrierFrequencyInBand(frames[f], g - CarriersBefore(frames, f));
  }

  lemma OwnerMonotone(frames: seq<FrameConf>, g1: nat, g2: nat)
    requires g1 <= g2 < TotalCarriers(frames)
    ensures OwnerFrame(frames, g1) <= OwnerFrame(frames, g2)
  {
    var f1, f2 := OwnerFrame(frames, g1), OwnerFrame(frames, g2);
    if f2 < f1 {
      CarriersBeforeMonotone(frames, f2 + 1, f1);
    }
  }

  /**
   * Global carrier frequencies grow strictly with the global id: carriers of
   * one superframe never share a centre frequency.
   */
  lemma GlobalFrequencyIncreasing(frames: seq<FrameConf>, g1: nat, g2: nat)
    requires g1 < g2 < TotalCarriers(frames)
    ensures GlobalCarrierFrequency(frames, g1) < GlobalCarrierFrequency(frames, g2)
  {
    var f1, f2 := OwnerFrame(frames, g1), OwnerFrame(frames, g2);
    OwnerMonotone(frames, g1, g2);
    if f1 == f2 {
      CarrierFrequencyIncreasing(frames[f1], g1 - CarriersBefore(frames, f1), g2 - CarriersBefore(frames, f1));
    } else {
      GlobalFrequencyInFrameBand(frames, g1);
      GlobalFrequencyInFrameBand(frames, g2);
      BandwidthBeforeMonotone(frames, f1 + 1, f2);
    }
  }

  // ---------------------------------------------------------------------

  /** An ordered list of frames forming the repeating capacity grid. */
  class SuperframeConf {
    const bandwidthHz: nat
    const duration: Time
    var frames: seq<FrameConf>

    /** A missing frame vector (a null pointer in the source) is the empty sequence here. */
    constructor (bandwidthHz: nat, duration: Time, frames: seq<FrameConf>)
      ensures this.bandwidthHz == bandwidthHz && this.duration == duration && this.frames == frames
    {
      this.bandwidthHz := bandwidthHz;
      this.duration := duration;
      this.frames := frames;
    }

    method AddFrameConf(conf: FrameConf)
      modifies this
      ensures frames == old(frames) + [conf]
      ensures GetFrameConf(|old(frames)|) == conf
      ensures forall i :: 0 <= i < |old(frames)| ==> GetFrameConf(i) == old(frames)[i]
    {
      frames := frames + [conf];
    }

    /** Unchecked vector index in the source: callers must stay in range. */
    function GetFrameConf(index: nat): FrameConf
      reads this
      requires index < |frames|
    {
      frames[index]
    }

    /** Sum of all frames' carrier counts. */
    method GetCarrierCount() returns (carrierCount: nat)
      ensures carrierCount == TotalCarriers(frames)
    {
      carrierCount := 0;
      for i := 0 to |frames|
        invariant carrierCount == CarriersBefore(frames, i)
      {
        carrierCount := carrierCount + frames[i].carrierCount;
      }
    }

    /** Flat carrier id of local carrier `frameCarrierId` of frame `frameId`. */
    method GetCarrierId(frameId: nat, frameCarrierId: nat) returns (carrierId: nat)
      requires frameId <= |frames|
      ensures carrierId == CarriersBefore(frames, frameId) + frameCarrierId
    {
      carrierId := frameCarrierId;
      for i := 0 to frameId
        invariant carrierId == CarriersBefore(frames, i) + frameCarrierId
      {
        carrierId := carrierId + frames[i].carrierCount;
      }
    }

    /**
     * Centre frequency of a global carrier, found by the linear scan over
     * frames. The first frame must have a carrier: the source computes the
     * last id of the first frame as an unsigned `count - 1`.
     */
    method GetCarrierFrequency(carrierId: nat) returns (frequency: real)
      requires |frames| > 0 && frames[0].carrierCount > 0
      requires carrierId < TotalCarriers(frames)
      ensures var f := OwnerFrame(frames, carrierId);
        frequency == BandwidthBefore(frames, f) as real + frames[f].CarrierFrequency(carrierId - CarriersBefore(frames, f))
    {
      var frameStartFrequency: nat := 0;
      var currentFrame: nat := 0;
      var lastIdInFrame: int := frames[0].carrierCount - 1;
      var carrierIdInFrame: int := carrierId;
      while carrierId > lastIdInFrame
        invariant currentFrame < |frames|
        invariant lastIdInFrame == CarriersBefore(frames, currentFrame + 1) - 1
        invariant carrierIdInFrame == carrierId - CarriersBefore(frames, currentFrame) >= 0
        invariant frameStartFrequency == BandwidthBefore(frames, currentFrame)
        invariant OwnerFrom(frames, carrierId, currentFrame) == OwnerFrame(frames, carrierId)
        decreases |frames| - currentFrame
      {
        carrierIdInFrame := carrierIdInFrame - frames[currentFrame].carrierCount;
        frameStartFrequency := frameStartFrequency + frames[currentFrame].bandwidthHz;
        currentFrame := currentFrame + 1;
        lastIdInFrame := lastIdInFrame + frames[currentFrame].carrierCount;
      }
      var carrierFrequencyInFrame := frames[currentFrame].CarrierFrequency(carrierIdInFrame);
      frequency := frameStartFrequency as real + carrierFrequencyInFrame;
    }

    /**
     * Carrier bandwidth of the frame owning a global carrier, by the same
     * scan. When the first frame has no carrier, the source's unsigned
     * `count - 1` wraps to the largest 32-bit id, no id exceeds it, the scan
     * is skipped and the first frame's carrier bandwidth is returned.
     */
    method GetCarrierBandwidth(carrierId: nat) returns (bandwidth: Pos)
      requires |frames| > 0
      requires frames[0].carrierCount > 0 ==> carrierId < TotalCarriers(frames)
      ensures frames[0].carrierCount > 0 ==> bandwidth == frames[OwnerFrame(frames, carrierId)].CarrierBandwidth()
      ensures frames[0].carrierCount == 0 ==> bandwidth == frames[0].CarrierBandwidth()
    {
      if frames[0].carrierCount == 0 {
        return frames[0].CarrierBandwidth();
      }
      var currentFrame: nat := 0;
      var lastIdInFrame: int := frames[0].carrierCount - 1;
      var carrierIdInFrame: int := carrierId;
      while carrierId > lastIdInFrame
        invariant currentFrame < |frames|
        invariant lastIdInFrame == CarriersBefore(frames, currentFrame + 1) - 1
        invariant carrierIdInFrame == carrierId - CarriersBefore(frames, currentFrame) >= 0
        invariant OwnerFrom(frames, carrierId, currentFrame) == OwnerFrame(frames, carrierId)
        decreases |frames| - currentFrame
      {
        carrierIdInFrame := carrierIdInFrame - frames[currentFrame].carrierCount;
        currentFrame := currentFrame + 1;
        lastIdInFrame := lastIdInFrame + frames[currentFrame].carrierCount;
      }
      bandwidth := frames[currentFrame].CarrierBandwidth();
    }
  }
}
