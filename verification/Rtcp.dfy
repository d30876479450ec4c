/** The RTCP session as the object the source keeps: receiver state and a
    loss window shifted in place, proved against RtcpReceive. */
module Rtcp {
  import opened Words
  import opened RtcpCodec
  import opened RtcpReceive
  import opened RtcpQuality
  import opened RtcpRoundTrip
  import opened RtcpBuffers

  /** What a session sends of its own: its identity and its sender counters. */
  datatype Local = Local(ssrc: u32, cname: Bytes, packetsSent: u32, octetsSent: u32, lastTimestamp: u32)

  function OwnBlocks(remote: Option<u32>, t: Tracker, jitter: u32, lastSr: u32, delay: u32): seq<ReportBlock> {
    if remote.None? then []
    else [ReportBlock(remote.value, FractionLost(t), CumulativeLost(t), t.highestExt, jitter, lastSr, delay)]
  }

  function OwnReport(own: Local, ntp: Ntp, blocks: seq<ReportBlock>): RtcpPacket {
    if own.packetsSent > 0 then SenderReport(own.ssrc, ntp, own.lastTimestamp, own.packetsSent, own.octetsSent, blocks)
    else ReceiverReport(own.ssrc, blocks)
  }

  /** The session's own metrics block, for a known source. */
  function OwnMetrics(s: Session, call: Call): Option<VoipMetricsBlock> {
    if s.remote.None? then None
    else Some(VoipMetricsBlock(s.remote.value,
                               CallMetrics(s.tracker.expected, s.tracker.received, call, s.burstDensity, s.gapDensity)))
  }

  /** The block that a session reports after any steady run: its source, the packets
      missing since the first, clamped, and the highest index. */
  lemma {:induction false} OwnBlockOfRun(
    remote: u32, events: seq<SessionEvent>, jitter: u32, lastSr: u32, delay: u32)
    requires Steady(Indices(events)) && Fits(Indices(events)) && Indices(events) != []
    requires -0x8000_0000 <= MissingPackets(Indices(events)) < 0x8000_0000
    ensures var indices := Indices(events);
      var blocks := OwnBlocks(Some(remote), TrackerAfter(events), jitter, lastSr, delay);
      && |blocks| == 1 && blocks[0].ssrc == remote
      && blocks[0].cumulativeLost == Min(Max(MissingPackets(indices), -0x7F_FFFF), 0x7F_FFFF)
      && blocks[0].extendedHighestSeq == Highest(indices) - (indices[0] - Low16(indices[0]))
      && blocks[0].fractionLost == FractionLost(TrackerAfter(events))
      && blocks[0].jitter == jitter && blocks[0].lastSr == lastSr && blocks[0].delaySinceLastSr == delay
  {
    hide TrackerAfter, Steady, Fits, FractionLost, CumulativeLost, MissingPackets, Indices, Highest;
    CumulativeLossIff(events);
    HighestOfRun(events);
  }

  lemma {:induction false} HighestOfRun(events: seq<SessionEvent>)
    requires Steady(Indices(events)) && Fits(Indices(events)) && Indices(events) != []
    ensures var indices, t := Indices(events), TrackerAfter(events);
      && t.highestExt == Highest(indices) - (indices[0] - Low16(indices[0]))
      && t.expected == Highest(indices) - indices[0] + 1 && t.received == |indices|
  {
    hide TrackerAfter, Steady, Indices, Highest;
    ReportsAreLinked(events);
    ExpectedPackets(Indices(events));
  }

  /** The loss rate in the metrics of such a session is the share of the packets from
      the first to the highest that is missing. */
  lemma {:induction false} OwnMetricsOfRun(s: Session, ssrc: u32, events: seq<SessionEvent>, call: Call)
    requires s.remote == Some(ssrc) && s.tracker == TrackerAfter(events)
    requires Steady(Indices(events)) && Fits(Indices(events)) && Indices(events) != []
    ensures var indices := Indices(events);
      var all, missing := Highest(indices) - indices[0] + 1, MissingPackets(Indices(events));
      var share := (if missing > 0 then missing as real else 0.0) / Max(all, 1) as real * 256.0;
      var own := OwnMetrics(s, call);
      && own.Some? && own.value.sourceSsrc == ssrc && all > 0
      && (share < 255.5 ==>
            own.value.metrics.lossRate as real - 0.5 <= share < own.value.metrics.lossRate as real + 0.5)
      && own.value.metrics.burstDensity == s.burstDensity && own.value.metrics.gapDensity == s.gapDensity
  {
    hide TrackerAfter, Steady, Fits, Indices, Highest, CallMetrics, LossRate, LossPercent;
    HighestOfRun(events);
    var t := TrackerAfter(events);
    HighestIsAhead(events);
    LossRateIs(t.expected, t.received);
    MetricsFields(t.expected, t.received, call, s.burstDensity, s.gapDensity);
    ScoresAreRounded(t.expected, t.received, call, s.burstDensity, s.gapDensity);
  }

  lemma {:induction false} HighestIsAhead(events: seq<SessionEvent>)
    requires Steady(Indices(events)) && Indices(events) != []
    ensures Highest(Indices(events)) >= Indices(events)[0]
  {
    TrackerRefines(Indices(events));
  }

  /** What the session has sent decides the report: a sender's counters, or none. */
  lemma {:induction false} OwnReportIs(own: Local, ntp: Ntp, blocks: seq<ReportBlock>)
    ensures own.packetsSent >= 1 ==>
      OwnReport(own, ntp, blocks)
      == SenderReport(own.ssrc, ntp, own.lastTimestamp, own.packetsSent, own.octetsSent, blocks)
    ensures own.packetsSent == 0 ==> OwnReport(own, ntp, blocks) == ReceiverReport(own.ssrc, blocks)
  {
  }

  /** The length of a report with its SDES. */
  function ReportLength(own: Local, hasBlock: bool): nat {
    (if own.packetsSent > 0 then 28 else 8) + (if hasBlock then 24 else 0) + 8 + Aligned(Min(|own.cname|, 255) + 3)
  }

  function EncodeReport(own: Local, ntp: Ntp, blocks: seq<ReportBlock>): Bytes {
    if own.packetsSent > 0
    then EncodeSr(own.ssrc, ntp, own.lastTimestamp, own.packetsSent, own.octetsSent, blocks)
    else EncodeRr(own.ssrc, blocks)
  }

  /** The blocks of a session's own report arrive as they are. */
  lemma {:induction false} OwnReportRoundTrip(
    own: Local, ntp: Ntp, blocks: seq<ReportBlock>, xr: Option<VoipMetricsBlock>)
    requires |blocks| <= 31 && forall i :: 0 <= i < |blocks| ==> -0x80_0000 <= blocks[i].cumulativeLost <= 0x7F_FFFF
    ensures ParseCompound(
        (EncodeReport(own, ntp, blocks) + EncodeSdes(own.ssrc, own.cname)) + EncodeOptionalXr(own.ssrc, xr))
         == [OwnReport(own, ntp, blocks)] + SentTrailer(own.ssrc, own.cname, xr)
  {
    BlocksArriveIff(blocks);
    assert (EncodeReport(own, ntp, blocks) + EncodeSdes(own.ssrc, own.cname)) + EncodeOptionalXr(own.ssrc, xr)
        == EncodeReport(own, ntp, blocks) + Trailer(own.ssrc, own.cname, xr);
    if own.packetsSent > 0 {
      CompoundSrRoundTrip(own.ssrc, ntp, own.lastTimestamp, own.packetsSent, own.octetsSent, blocks, own.cname, xr);
    } else {
      CompoundRrRoundTrip(own.ssrc, blocks, own.cname, xr);
    }
  }

  class RtcpSession {
    var remote: Option<u32>
    var tracker: Tracker
    const lossWindow: array<bool>
    var windowLen: nat
    var burstDensity: byte
    var gapDensity: byte

    ghost predicate Ready()
      reads this
    {
      lossWindow.Length == WINDOW && windowLen <= WINDOW
    }

    ghost function Now(): Session
      reads this, lossWindow
    {
      Session(remote, tracker, lossWindow[..], windowLen, burstDensity, gapDensity)
    }

    constructor ()
      ensures Ready() && fresh(lossWindow) && Now() == NewSession()
    {
      remote, tracker, windowLen, burstDensity, gapDensity := None, NoPackets(), 0, 0, 0;
      lossWindow := new bool[WINDOW](_ => true);
    }

    /** Moves every entry one place back, last entry first. */
    method ShiftWindow(event: bool)
      requires lossWindow.Length == WINDOW
      modifies lossWindow
      ensures lossWindow[..] == RtcpReceive.Shifted(old(lossWindow[..]), event)
    {
      ghost var was := lossWindow[..];
      var i := WINDOW - 1;
      while i > 0
        invariant 0 <= i < WINDOW
        invariant forall k :: 0 <= k <= i ==> lossWindow[k] == was[k]
        invariant forall k :: i < k < WINDOW ==> lossWindow[k] == was[k - 1]
      {
        lossWindow[i] := lossWindow[i - 1];
        i := i - 1;
      }
      lossWindow[0] := event;
    }

    method CountBursts(w: seq<bool>) returns (c: Counts)
      ensures c == Scan(w, 0, false)
    {
      var lost, total, gapLost, gapTotal, inBurst := 0, 0, 0, 0, false;
      var i := 0;
      while i < |w|
        invariant 0 <= i <= |w|
        invariant var rest := Scan(w, i, inBurst);
          Scan(w, 0, false) == Counts(lost + rest.burstLost, total + rest.burstTotal, gapLost + rest.gapLost,
              gapTotal + rest.gapTotal)
      {
        if !w[i] {
          inBurst, lost, total := true, lost + 1, total + 1;
        } else if inBurst {
          var nextLost := i + 1 < |w| && !w[i + 1];
          if nextLost {
            total := total + 1;
          } else {
            inBurst, gapTotal := false, gapTotal + 1;
          }
        } else {
          gapTotal := gapTotal + 1;
        }
        i := i + 1;
      }
      c := Counts(lost, total, gapLost, gapTotal);
    }

    method RecordLossEvent(event: bool)
      requires Ready()
      modifies this, lossWindow
      ensures Ready() && Now() == RecordLoss(old(Now()), event)
    {
      ShiftWindow(event);
      if windowLen < WINDOW {
        windowLen := windowLen + 1;
      }
      if windowLen < 2 {
        burstDensity, gapDensity := 0, 0;
      } else {
        var c := CountBursts(lossWindow[..windowLen]);
        burstDensity, gapDensity := Density(c.burstLost, c.burstTotal), Density(c.gapLost, c.gapTotal);
      }
      assert lossWindow[..windowLen] == lossWindow[..][..windowLen];
    }

    method RecordMissing(n: nat)
      requires Ready()
      modifies this, lossWindow
      ensures Ready() && Now() == RecordLosses(old(Now()), Repeat(false, n))
    {
      ghost var start := Now();
      var i := 0;
      while i < n
        invariant 0 <= i <= n && Ready()
        invariant Now() == RecordLosses(start, Repeat(false, i))
      {
        RecordLossEvent(false);
        assert Repeat(false, i + 1)[..i] == Repeat(false, i);
        i := i + 1;
      }
    }

    /** Marks the numbers of a forward gap as lost, then the packet as received. */
    method RecordGap(gap: u16)
      requires Ready()
      modifies this, lossWindow
      ensures Ready() && Now() == RecordLosses(old(Now()), EventsForGap(gap))
    {
      ghost var lost: seq<bool> := [];
      if 0 < gap < MAX_DROPOUT {
        RecordMissing(gap);
        lost := Repeat(false, gap);
      }
      RecordLossEvent(true);
      assert (lost + [true])[..|lost|] == lost;
      assert EventsForGap(gap) == lost + [true];
    }

    method TrackNumber(number: u16)
      modifies `tracker
      ensures tracker == Track(old(tracker), number)
    {
      tracker := tracker.(received := Low32(tracker.received + 1));
      if !tracker.started {
        tracker := Restarted(tracker, number);
      } else {
        var delta := Sub16(number, tracker.highest);
        if delta < MAX_DROPOUT {
          if number < tracker.highest {
            tracker := tracker.(cycles := tracker.cycles + 1);
          }
          tracker := tracker.(highest := number);
        } else if delta <= 0xFFFF - MAX_MISORDER {
          tracker := Restarted(tracker, number).(received := 1, lastReceived := 0, lastExpected := 0);
        }
      }
      tracker := Derive(tracker);
    }

    method RecordRtpReceived(ssrc: u32, number: u16)
      requires Ready()
      modifies this, lossWindow
      ensures Ready() && Now() == Receive(old(Now()), ssrc, number)
    {
      if remote.Some? && remote != Some(ssrc) {
        tracker := NoPackets();
      }
      remote := Some(ssrc);
      ghost var before := tracker;
      var started, expected := tracker.started, Low16(tracker.highest + 1);
      TrackNumber(number);
      if started {
        RecordGap(Sub16(number, expected));
      }
      assert Events(before, number) == if started then EventsForGap(Sub16(number, expected)) else [];
    }

    /** The blocks of the next report; arrival jitter and the times of the last
        sender report are parameters. */
    method BuildReportBlocks(jitter: u32, lastSr: u32, delaySinceLastSr: u32) returns (blocks: seq<ReportBlock>)
      ensures remote.None? ==> blocks == []
      ensures remote.Some? ==> blocks == [ReportBlock(remote.value, FractionLost(tracker), CumulativeLost(tracker),
                                                      tracker.highestExt, jitter, lastSr, delaySinceLastSr)]
      ensures forall i :: 0 <= i < |blocks| ==> -0x80_0000 <= blocks[i].cumulativeLost <= 0x7F_FFFF
    {
      if remote.None? {
        return [];
      }
      OwnLossFits(tracker);
      blocks := [ReportBlock(remote.value, FractionLost(tracker), CumulativeLost(tracker), tracker.highestExt,
                             jitter, lastSr, delaySinceLastSr)];
    }

    /** What building a report leaves for the next one's interval. */
    method SaveReportCounters()
      modifies `tracker
      ensures tracker == Reported(old(tracker))
    {
      tracker := tracker.(lastReceived := tracker.received, lastExpected := tracker.expected);
    }

    /** Builds the report a session is due: as a sender or as a receiver, with the
        metrics appended where they fit. Whoever parses what is written reads
        back the session's own figures. */
    method BuildRtcp(
        buf: array<byte>, own: Local, ntp: Ntp, jitter: u32, lastSr: u32, delaySinceLastSr: u32, call: Call)
      returns (n: nat)
      requires Ready() && ReportLength(own, remote.Some?) <= buf.Length
      modifies buf, `tracker
      ensures tracker == Reported(old(tracker)) && n <= buf.Length
      ensures ParseCompound(buf[..n])
           == [OwnReport(own, ntp, OwnBlocks(remote, old(tracker), jitter, lastSr, delaySinceLastSr))]
              + SentTrailer(own.ssrc, own.cname,
                            if ReportLength(own, remote.Some?) + 48 <= buf.Length then OwnMetrics(old(Now()), call)
                            else None)
    {
      hide ParseCompound, EncodeReport, EncodeSdes, EncodeOptionalXr, CallMetrics, FractionLost, CumulativeLost;
      var blocks := BuildReportBlocks(jitter, lastSr, delaySinceLastSr);
      n := WriteReport(buf, own, ntp, blocks);
      ghost var written := EncodeReport(own, ntp, blocks) + EncodeSdes(own.ssrc, own.cname);
      ghost var xr := if n + 48 <= buf.Length then OwnMetrics(Now(), call) else None;
      n := AppendXr(buf, own, n, call, written);
      OwnReportRoundTrip(own, ntp, blocks, xr);
      SaveReportCounters();
    }

    method WriteReport(buf: array<byte>, own: Local, ntp: Ntp, blocks: seq<ReportBlock>) returns (n: nat)
      requires |blocks| <= 1 && ReportLength(own, blocks != []) <= buf.Length
      modifies buf
      ensures n == ReportLength(own, blocks != []) && n <= buf.Length
      ensures buf[..n] == EncodeReport(own, ntp, blocks) + EncodeSdes(own.ssrc, own.cname)
    {
      if own.packetsSent > 0 {
        n := BuildCompoundSr(buf, own.ssrc, ntp, own.lastTimestamp, own.packetsSent, own.octetsSent, blocks, own.cname);
      } else {
        n := BuildCompoundRr(buf, own.ssrc, blocks, own.cname);
      }
      assert |buf[..n]| == n;
    }

    method AppendXr(buf: array<byte>, own: Local, len: nat, call: Call, ghost written: Bytes) returns (n: nat)
      requires len <= buf.Length && buf[..len] == written
      modifies buf
      ensures n <= buf.Length
      ensures buf[..n] == written
        + EncodeOptionalXr(own.ssrc, if len + 48 <= buf.Length then OwnMetrics(Now(), call) else None)
    {
      n := len;
      if remote.Some? && len + 48 <= buf.Length {
        var m := CallMetrics(tracker.expected, tracker.received, call, burstDensity, gapDensity);
        var x := BuildXr(buf, len, own.ssrc, remote.value, m);
        n := len + x;
        assert buf[..n] == buf[..len] + buf[len..n];
      }
    }
  }
}
