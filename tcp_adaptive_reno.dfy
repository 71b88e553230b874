/**
 * `TcpAdaptiveReno` as the object it is: eight fields that every entry point
 * updates in place, plus the acknowledged-segment counter of its Westwood+
 * base class.  Each method is proved against the matching transition of
 * module AdaptiveRenoSpec, and keeps the invariant `Inv`.
 */
module TcpAdaptiveRenoModel {
  import opened IntTypes
  import opened AdaptiveRenoSpec

  /** The part of the transport's socket state that the policy reads and
      writes during one call: the congestion window and the segment size. */
  class TcpSocketState {
    var cWnd: Uint32
    var segmentSize: Uint32
  }

  class TcpAdaptiveReno {
    var rttMin: Time
    var rttCurr: Time
    var rttJ: Time
    var rttCong: Time
    var rttCongPrev: Time
    var wInc: Int32
    var wBase: Uint32
    var wProbe: Int32
    var ackedSegments: nat

    /** The fields as a value. */
    function State(): Fields
      reads this
    {
      Fields(rttMin, rttCurr, rttJ, rttCong, rttCongPrev, wInc, wBase, wProbe, ackedSegments)
    }

    ghost predicate Valid()
      reads this
    {
      Inv(State())
    }

    /** The default constructor: every field zero. */
    constructor ()
      ensures Valid()
      ensures State() == Initial
    {
      rttMin, rttCurr, rttJ, rttCong, rttCongPrev := 0, 0, 0, 0, 0;
      wInc, wBase, wProbe := 0, 0, 0;
      ackedSegments := 0;
    }

    /** The copy constructor: the base-class part comes from `sock`, but the
        eight Adaptive Reno fields start at zero instead of being copied. */
    constructor Copy(sock: TcpAdaptiveReno)
      ensures Valid()
      ensures State() == Initial.(ackedSegments := sock.ackedSegments)
    {
      rttMin, rttCurr, rttJ, rttCong, rttCongPrev := 0, 0, 0, 0, 0;
      wInc, wBase, wProbe := 0, 0, 0;
      ackedSegments := sock.ackedSegments;
    }

    /** A new, separate instance built by the copy constructor. */
    method Fork() returns (clone: TcpAdaptiveReno)
      ensures fresh(clone) && clone.Valid()
      ensures clone.State() == Initial.(ackedSegments := ackedSegments)
    {
      clone := new TcpAdaptiveReno.Copy(this);
    }

    /** Takes one RTT sample; a zero sample changes nothing. */
    method PktsAcked(packetsAcked: Uint32, rtt: Time)
      requires Valid()
      modifies this
      ensures Valid()
      ensures State() == AfterPktsAcked(old(State()), packetsAcked, rtt)
      ensures rtt == 0 ==> unchanged(this)
      ensures rtt != 0 ==>
                && ackedSegments == old(ackedSegments) + packetsAcked
                && rttCurr == rtt
                && rttMin <= rtt
                && (old(rttMin) != 0 ==> rttMin <= old(rttMin))
    {
      if rtt == 0 {
        return;
      }
      ackedSegments := ackedSegments + packetsAcked;
      if rttMin == 0 || rtt < rttMin {
        rttMin := rtt;
      }
      rttCurr := rtt;
    }

    /** Updates the smoothed RTT at congestion and returns the congestion level. */
    method EstimateCongestionLevel() returns (c: real)
      requires CongestionLevelDefined(State())
      modifies this`rttCong
      ensures rttCong == SmoothedCongestionRtt(rttCongPrev, rttMin, rttJ)
      ensures rttCongPrev < rttMin ==> rttCong == rttJ
      ensures c == CongestionLevel(rttCurr, rttMin, rttCong)
      ensures c <= 1.0
    {
      if rttCongPrev < rttMin {
        // smoothing factor 0: the series starts from the captured RTT
        rttCong := rttJ;
      } else {
        // smoothing factor 0.85
        rttCong := (85 * rttCongPrev + 15 * rttJ) / 100;
      }
      c := CongestionLevel(rttCurr, rttMin, rttCong);
    }

    /** Refreshes the probe increment.  `inc` stands for what the exponential
        shaping of the congestion level and the bandwidth estimate yields. */
    method EstimateIncWnd(inc: Int32)
      requires CongestionLevelDefined(State())
      modifies this`rttCong, this`wInc
      ensures rttCong == SmoothedCongestionRtt(rttCongPrev, rttMin, rttJ)
      ensures wInc == inc
    {
      var congestion := EstimateCongestionLevel();
      wInc := inc;
    }

    /** Grows the base window by at least 1, moves the probe window by the
        increment over the window (never below 0), and sets the congestion
        window to their sum. */
    method CongestionAvoidance(tcb: TcpSocketState, segmentsAcked: Uint32, inc: Int32)
      requires Valid()
      requires AvoidanceDefined(State(), segmentsAcked, tcb.cWnd, inc)
      modifies this, tcb`cWnd
      ensures Valid()
      ensures (State(), tcb.cWnd) ==
              AfterCongestionAvoidance(old(State()), segmentsAcked, tcb.segmentSize, old(tcb.cWnd), inc)
      ensures segmentsAcked == 0 ==> unchanged(this, tcb)
      ensures segmentsAcked > 0 ==>
                && 0 <= wProbe
                && (0 <= inc ==> old(wProbe) <= wProbe)
                && tcb.cWnd == Wrap32(wBase + wProbe)
    {
      if segmentsAcked > 0 {
        EstimateIncWnd(inc);
        var segSize := tcb.segmentSize;
        wBase := Wrap32(wBase + BaseIncrement(segSize, tcb.cWnd));
        wProbe := ProbeUpdate(wProbe, wInc, tcb.cWnd);
        tcb.cWnd := Wrap32(wBase + wProbe);
      }
    }

    /** On a congestion event: shifts the RTT history, backs the base window
        off by 1 + level (at least two segments), clears the probe window and
        returns the base window as the slow-start threshold. */
    method GetSsThresh(tcb: TcpSocketState, bytesInFlight: Uint32) returns (ssThresh: Uint32)
      requires Valid()
      requires SsThreshDefined(State())
      modifies this
      ensures Valid()
      ensures (State(), ssThresh) == AfterGetSsThresh(old(State()), tcb.segmentSize, tcb.cWnd)
      ensures rttCongPrev == old(rttCong) && rttJ == old(rttCurr)
      ensures wProbe == 0 && ssThresh == wBase
      ensures Wrap32(2 * tcb.segmentSize) <= ssThresh
      ensures Max(Wrap32(2 * tcb.segmentSize), tcb.cWnd / 2) <= ssThresh <= Max(Wrap32(2 * tcb.segmentSize), tcb.cWnd)
    {
      ghost var before := State();
      rttCongPrev := rttCong;
      rttJ := rttCurr;
      var congestion := EstimateCongestionLevel();
      LevelAtCongestionEventInUnitInterval(before);
      wBase := SsThreshold(tcb.cWnd, tcb.segmentSize, congestion);
      wProbe := 0;
      ssThresh := wBase;
    }
  }

  /** Forking and then driving both instances: each changes only by its own
      calls. */
  method ForkedInstancesAreIndependent(reno: TcpAdaptiveReno, sample1: Sample, sample2: Sample)
      returns (clone: TcpAdaptiveReno)
    requires reno.Valid()
    modifies reno
    ensures fresh(clone) && clone != reno
    ensures reno.State() == AfterPktsAcked(old(reno.State()), sample1.packetsAcked, sample1.rtt)
    ensures clone.State() ==
            AfterPktsAcked(Initial.(ackedSegments := old(reno.ackedSegments)), sample2.packetsAcked, sample2.rtt)
  {
    clone := reno.Fork();
    reno.PktsAcked(sample1.packetsAcked, sample1.rtt);
    clone.PktsAcked(sample2.packetsAcked, sample2.rtt);
  }
}
