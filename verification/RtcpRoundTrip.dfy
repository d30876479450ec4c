/** Parsing what the builders wrote recovers it: for every input of the
    builders what exactly arrives, and when that is the input itself. */
module RtcpRoundTrip {
  import opened Words
  import opened RtcpCodec

  // ---------- words and slices ----------

  lemma {:induction false} HalfRoundTrip(x: u16)
    ensures Join16(x / 0x100, x % 0x100) == x
  {
  }

  lemma {:induction false} WordRoundTrip(x: u32, rest: Bytes)
    ensures Get32(Put32(x) + rest, 0) == x
  {
    HalfRoundTrip(x / 0x1_0000);
    HalfRoundTrip(x % 0x1_0000);
  }

  lemma {:induction false} Shifted(a: Bytes, b: Bytes, o: nat)
    requires o + 4 <= |b|
    ensures Get32(a + b, |a| + o) == Get32(b, o)
  {
  }

  lemma {:induction false} Peel(a: Bytes, b: Bytes)
    ensures (a + b)[..|a|] == a && (a + b)[|a|..] == b
  {
  }

  lemma {:induction false} WordsAt(ws: seq<u32>, i: nat, rest: Bytes)
    requires i < |ws|
    ensures Get32(PutWords(ws) + rest, 4 * i) == ws[i]
  {
    var tail := PutWords(ws[1..]) + rest;
    assert PutWords(ws) + rest == Put32(ws[0]) + tail;
    if i == 0 {
      WordRoundTrip(ws[0], tail);
    } else {
      Shifted(Put32(ws[0]), tail, 4 * (i - 1));
      WordsAt(ws[1..], i - 1, rest);
    }
  }

  // ---------- report blocks ----------

  /** The value of the low 24 bits of `x`, read as a signed number. */
  function Signed24(x: int): int {
    (x + 0x80_0000) % 0x100_0000 - 0x80_0000
  }

  function SentBlock(b: ReportBlock): ReportBlock {
    b.(cumulativeLost := Signed24(b.cumulativeLost))
  }

  /** The two parts of the loss word, as the parser picks them out of bytes. */
  lemma {:induction false} LossWordParts(d: Bytes, fraction: byte, lost: int)
    requires |d| >= 24 && 0 <= lost < 0x100_0000 && Get32(d, 4) == LossWord(fraction, lost)
    ensures ParseBlock(d).fractionLost == fraction
    ensures ParseBlock(d).cumulativeLost == if lost >= 0x80_0000 then lost - 0x100_0000 else lost
  {
    var a: int, b: int, c: int := d[4], d[5], Get16(d, 6);
    assert a * 0x100_0000 + b * 0x1_0000 + c == fraction * 0x100_0000 + lost;
  }

  lemma {:induction false} WholeWords(d: Bytes)
    requires |d| >= 24
    ensures var b := ParseBlock(d);
      && b.ssrc == Get32(d, 0) && b.extendedHighestSeq == Get32(d, 8) && b.jitter == Get32(d, 12)
      && b.lastSr == Get32(d, 16) && b.delaySinceLastSr == Get32(d, 20)
  {
    hide Get32;
  }

  lemma {:induction false} SentLoss(b: ReportBlock)
    ensures var lost := b.cumulativeLost % 0x100_0000;
      SentBlock(b) == b.(cumulativeLost := if lost >= 0x80_0000 then lost - 0x100_0000 else lost)
  {
  }

  lemma {:induction false} BlockFields(d: Bytes, ws: seq<u32>, b: ReportBlock)
    requires |d| >= 24 && |ws| == 6 && forall i :: 0 <= i < 6 ==> Get32(d, 4 * i) == ws[i]
    requires ws == [b.ssrc, LossWord(b.fractionLost, b.cumulativeLost % 0x100_0000),
                    b.extendedHighestSeq, b.jitter, b.lastSr, b.delaySinceLastSr]
    ensures ParseBlock(d) == SentBlock(b)
  {
    hide Get32, LossWord, ParseBlock, SentBlock;
    assert Get32(d, 4 * 0) == ws[0] && Get32(d, 4 * 1) == ws[1] && Get32(d, 4 * 2) == ws[2];
    assert Get32(d, 4 * 3) == ws[3] && Get32(d, 4 * 4) == ws[4] && Get32(d, 4 * 5) == ws[5];
    WholeWords(d);
    SentLoss(b);
    LossWordParts(d, b.fractionLost, b.cumulativeLost % 0x100_0000);
  }

  lemma {:induction false} BlockRoundTrip(b: ReportBlock, rest: Bytes)
    ensures ParseBlock(EncodeBlock(b) + rest) == SentBlock(b)
  {
    var ws := [b.ssrc, LossWord(b.fractionLost, b.cumulativeLost % 0x100_0000),
               b.extendedHighestSeq, b.jitter, b.lastSr, b.delaySinceLastSr];
    forall i | 0 <= i < 6
      ensures Get32(PutWords(ws) + rest, 4 * i) == ws[i]
    {
      WordsAt(ws, i, rest);
    }
    BlockFields(PutWords(ws) + rest, ws, b);
  }

  function SentBlocks(bs: seq<ReportBlock>): (r: seq<ReportBlock>)
    ensures |r| == |bs|
  {
    seq(|bs|, i requires 0 <= i < |bs| => SentBlock(bs[i]))
  }

  lemma {:induction false} BlocksRoundTrip(bs: seq<ReportBlock>, rest: Bytes)
    ensures ParseBlocks(EncodeBlocks(bs) + rest, |bs|) == SentBlocks(bs)
  {
    if bs == [] {
    } else {
      var tail := EncodeBlocks(bs[1..]) + rest;
      assert EncodeBlocks(bs) + rest == EncodeBlock(bs[0]) + tail;
      BlockRoundTrip(bs[0], tail);
      Peel(EncodeBlock(bs[0]), tail);
      BlocksRoundTrip(bs[1..], rest);
      assert SentBlocks(bs) == [SentBlock(bs[0])] + SentBlocks(bs[1..]);
    }
  }

  lemma {:induction false} BlocksAlone(bs: seq<ReportBlock>)
    ensures ParseBlocks(EncodeBlocks(bs), |bs|) == SentBlocks(bs)
  {
    assert EncodeBlocks(bs) + [] == EncodeBlocks(bs);
    BlocksRoundTrip(bs, []);
  }

  // ---------- the common header ----------

  lemma {:induction false} HeaderSays(rc: nat, pt: byte, length: u16, rest: Bytes)
    requires rc <= 31
    ensures var d := Header(rc, pt, length) + rest;
      d[0] == 0x80 + rc && d[1] == pt && PacketLength(d) == 4 * (length + 1)
  {
    HalfRoundTrip(length);
    var h := Header(rc, pt, length);
    assert (h + rest)[2] == h[2] && (h + rest)[3] == h[3];
  }

  /** The header lets the parser cut its packet, whole, out of a compound. */
  lemma {:induction false} Cut(p: Bytes, rc: nat, pt: byte, length: u16, body: Bytes, rest: Bytes)
    requires rc <= 31 && |body| == 4 * length && p == Header(rc, pt, length) + body
    ensures Split(p + rest) == [p] + Split(rest)
  {
    hide Header, PacketLength;
    HeaderSays(rc, pt, length, body + rest);
    assert Header(rc, pt, length) + (body + rest) == p + rest;
    HeaderSays(rc, pt, length, body);
    Peel(p, rest);
  }

  /** A header, some words and then the rest, as the parsers index them. */
  lemma {:induction false} FieldsAt(h: Bytes, ws: seq<u32>, rest: Bytes)
    requires |h| == 4
    ensures var p := h + (PutWords(ws) + rest);
      && (forall i :: 0 <= i < |ws| ==> Get32(p, 4 + 4 * i) == ws[i])
      && p[4 + 4 * |ws|..] == rest
  {
    forall i | 0 <= i < |ws|
      ensures Get32(h + (PutWords(ws) + rest), 4 + 4 * i) == ws[i]
    {
      Shifted(h, PutWords(ws) + rest, 4 * i);
      WordsAt(ws, i, rest);
    }
    assert h + (PutWords(ws) + rest) == (h + PutWords(ws)) + rest;
    Peel(h + PutWords(ws), rest);
  }

  // ---------- sender and receiver reports ----------

  function SentSr(ssrc: u32, ntp: Ntp, rtpTimestamp: u32, packetCount: u32, octetCount: u32, blocks: seq<ReportBlock>)
    : RtcpPacket
  {
    SenderReport(ssrc, ntp, rtpTimestamp, packetCount, octetCount, SentBlocks(Take(blocks, 31)))
  }

  lemma {:induction false} SrDispatch(p: Bytes, rc: nat)
    requires |p| >= 28 && rc <= 31 && p[0] == 0x80 + rc && p[1] == PT_SR
    ensures ParseOne(p) == ParseSr(p, rc)
  {
    assert p[0] % 0x20 == rc;
  }

  lemma {:induction false} SrFields(p: Bytes, ws: seq<u32>, bs: seq<ReportBlock>)
    requires |ws| == 6 && |p| >= 28 && forall i :: 0 <= i < 6 ==> Get32(p, 4 + 4 * i) == ws[i]
    requires ParseBlocks(p[28..], |bs|) == SentBlocks(bs)
    ensures ParseSr(p, |bs|) == Some(SenderReport(ws[0], Ntp(ws[1], ws[2]), ws[3], ws[4], ws[5], SentBlocks(bs)))
  {
    assert Get32(p, 4 + 4 * 0) == ws[0] && Get32(p, 4 + 4 * 1) == ws[1] && Get32(p, 4 + 4 * 2) == ws[2];
    assert Get32(p, 4 + 4 * 3) == ws[3] && Get32(p, 4 + 4 * 4) == ws[4] && Get32(p, 4 + 4 * 5) == ws[5];
  }

  lemma {:induction false} SrPacket(p: Bytes, ws: seq<u32>, bs: seq<ReportBlock>)
    requires |ws| == 6 && |bs| <= 31
    requires p == Header(|bs|, PT_SR, 6 + 6 * |bs|) + (PutWords(ws) + EncodeBlocks(bs))
    ensures ParseOne(p) == Some(SenderReport(ws[0], Ntp(ws[1], ws[2]), ws[3], ws[4], ws[5], SentBlocks(bs)))
  {
    var body := PutWords(ws) + EncodeBlocks(bs);
    FieldsAt(Header(|bs|, PT_SR, 6 + 6 * |bs|), ws, EncodeBlocks(bs));
    HeaderSays(|bs|, PT_SR, 6 + 6 * |bs|, body);
    BlocksAlone(bs);
    SrFields(p, ws, bs);
    SrDispatch(p, |bs|);
  }


  lemma {:induction false} RrDispatch(p: Bytes, rc: nat)
    requires |p| >= 8 && rc <= 31 && p[0] == 0x80 + rc && p[1] == PT_RR
    ensures ParseOne(p) == ParseRr(p, rc)
  {
    assert p[0] % 0x20 == rc;
  }

  lemma {:induction false} RrPacket(p: Bytes, ssrc: u32, bs: seq<ReportBlock>)
    requires |bs| <= 31
    requires p == Header(|bs|, PT_RR, 1 + 6 * |bs|) + (PutWords([ssrc]) + EncodeBlocks(bs))
    ensures ParseOne(p) == Some(ReceiverReport(ssrc, SentBlocks(bs)))
  {
    var body := PutWords([ssrc]) + EncodeBlocks(bs);
    FieldsAt(Header(|bs|, PT_RR, 1 + 6 * |bs|), [ssrc], EncodeBlocks(bs));
    HeaderSays(|bs|, PT_RR, 1 + 6 * |bs|, body);
    BlocksAlone(bs);
    RrDispatch(p, |bs|);
    assert Get32(p, 4 + 4 * 0) == ssrc;
  }


  // ---------- source description and goodbye ----------

  /** The items after the SSRC: one CNAME, then zeros. */
  lemma {:induction false} ItemsAt(p: Bytes, o: nat, name: Bytes)
    requires |name| <= 255 && o + 3 + |name| <= |p|
    requires p[o] == SDES_CNAME && p[o + 1] == |name| && p[o + 2..o + 2 + |name|] == name && p[o + 2 + |name|] == 0
    ensures ParseItems(p, o, None) == (Aligned(o + 3 + |name|), FromUtf8(name))
  {
    assert ParseItems(p, o + 2 + |name|, FromUtf8(name)) == (Aligned(o + 3 + |name|), FromUtf8(name));
  }

  lemma {:induction false} SdesFields(p: Bytes, ssrc: u32, name: Bytes, w: nat)
    requires |name| <= 255 && |name| + 3 <= 4 * w && |p| >= 8 && Get32(p, 4 + 4 * 0) == ssrc
    requires p[8..] == Padded([SDES_CNAME, |name|], name, w) && p[0] == 0x81 && p[1] == PT_SDES
    ensures ParseOne(p) == Some(SourceDescription([SdesChunk(ssrc, FromUtf8(name))]))
  {
    var items := p[8..];
    assert items[0] == SDES_CNAME && items[1] == |name| && items[2..2 + |name|] == name && items[2 + |name|] == 0;
    assert p[10..10 + |name|] == items[2..2 + |name|];
    ItemsAt(p, 8, name);
    var next := Aligned(8 + 3 + |name|);
    assert ParseChunks(p, next, 0) == [];
    var chunk := SdesChunk(ssrc, FromUtf8(name));
    assert ParseChunks(p, 4, 1) == [chunk] + ParseChunks(p, next, 0);
    assert [chunk] + [] == [chunk];
  }

  lemma {:induction false} SdesPacket(p: Bytes, ssrc: u32, name: Bytes, w: nat)
    requires |name| <= 255 && |name| + 3 <= 4 * w <= 260
    requires p == Header(1, PT_SDES, 1 + w) + (PutWords([ssrc]) + Padded([SDES_CNAME, |name|], name, w))
    ensures ParseOne(p) == Some(SourceDescription([SdesChunk(ssrc, FromUtf8(name))]))
  {
    var items := Padded([SDES_CNAME, |name|], name, w);
    var body := PutWords([ssrc]) + items;
    FieldsAt(Header(1, PT_SDES, 1 + w), [ssrc], items);
    HeaderSays(1, PT_SDES, 1 + w, body);
    SdesFields(p, ssrc, name, w);
  }


  lemma {:induction false} SourcesRoundTrip(ss: seq<u32>, rest: Bytes)
    ensures ParseSources(PutWords(ss) + rest, |ss|) == ss
  {
    if ss == [] {
    } else {
      var tail := PutWords(ss[1..]) + rest;
      assert PutWords(ss) + rest == Put32(ss[0]) + tail;
      WordRoundTrip(ss[0], tail);
      Peel(Put32(ss[0]), tail);
      SourcesRoundTrip(ss[1..], rest);
    }
  }

  function SentReason(reason: Option<Bytes>): Option<Bytes> {
    if reason.None? then None else FromUtf8(Take(reason.value, 255))
  }

  lemma {:induction false} ReasonRoundTrip(reason: Option<Bytes>)
    ensures ParseReason(EncodeReason(reason)) == SentReason(reason)
  {
    if reason.Some? {
      var text := Take(reason.value, 255);
      assert EncodeReason(reason)[1..1 + |text|] == text;
    }
  }

  lemma {:induction false} ByeFields(p: Bytes, ss: seq<u32>, reason: Option<Bytes>)
    requires |p| >= 4 && ParseSources(p[4..], |ss|) == ss
    requires 4 + 4 * |ss| <= |p| && p[4 + 4 * |ss|..] == EncodeReason(reason)
    ensures ParseBye(p, |ss|) == Some(Goodbye(ss, SentReason(reason)))
  {
    ReasonRoundTrip(reason);
  }

  lemma {:induction false} ByeDispatch(p: Bytes, rc: nat)
    requires |p| >= 4 && rc <= 31 && p[0] == 0x80 + rc && p[1] == PT_BYE
    ensures ParseOne(p) == ParseBye(p, rc)
  {
    assert p[0] % 0x20 == rc;
  }

  lemma {:induction false} ByeParts(p: Bytes, h: Bytes, ss: seq<u32>, rs: Bytes)
    requires |h| == 4 && p == h + (PutWords(ss) + rs)
    ensures p[4..] == PutWords(ss) + rs && p[4 + 4 * |ss|..] == rs
  {
    Peel(h, PutWords(ss) + rs);
    Peel(PutWords(ss), rs);
    assert p[4 + 4 * |ss|..] == p[4..][4 * |ss|..];
  }

  lemma {:induction false} ByePacket(p: Bytes, ss: seq<u32>, reason: Option<Bytes>)
    requires |ss| <= 31
    requires p == Header(|ss|, PT_BYE, |ss| + ReasonWords(reason)) + (PutWords(ss) + EncodeReason(reason))
    ensures ParseOne(p) == Some(Goodbye(ss, SentReason(reason)))
  {
    var h, body := Header(|ss|, PT_BYE, |ss| + ReasonWords(reason)), PutWords(ss) + EncodeReason(reason);
    ByeParts(p, h, ss, EncodeReason(reason));
    SourcesRoundTrip(ss, EncodeReason(reason));
    HeaderSays(|ss|, PT_BYE, |ss| + ReasonWords(reason), body);
    ByeFields(p, ss, reason);
    ByeDispatch(p, |ss|);
  }

  // ---------- extended report ----------

  lemma {:induction false} MetricsRoundTrip(m: VoipMetrics)
    ensures ParseMetrics(EncodeMetrics(m)) == Some(m)
  {
    HalfRoundTrip(m.burstDuration);
    HalfRoundTrip(m.gapDuration);
    HalfRoundTrip(m.roundTripDelay);
    HalfRoundTrip(m.endSystemDelay);
    HalfRoundTrip(m.jbNominal);
    HalfRoundTrip(m.jbMaximum);
    HalfRoundTrip(m.jbAbsMax);
  }

  lemma {:induction false} XrBodyRoundTrip(remoteSsrc: u32, m: VoipMetrics)
    ensures ReadXrBlock(VOIP_METRICS, PutWords([remoteSsrc]) + EncodeMetrics(m), None)
         == Some(VoipMetricsBlock(remoteSsrc, m))
  {
    WordsAt([remoteSsrc], 0, EncodeMetrics(m));
    Peel(PutWords([remoteSsrc]), EncodeMetrics(m));
    MetricsRoundTrip(m);
  }

  lemma {:induction false} OneXrBlock(body: Bytes, found: Option<VoipMetricsBlock>)
    requires |body| == 32
    ensures ParseXrBlocks([VOIP_METRICS, 0, 0, 8] + body, found) == ReadXrBlock(VOIP_METRICS, body, found)
  {
    var d := [VOIP_METRICS, 0, 0, 8] + body;
    assert Get16(d, 2) == 8 && d[0] == VOIP_METRICS;
    assert d[4..36] == body && d[36..] == [];
  }

  lemma {:induction false} XrFields(p: Bytes, ssrc: u32, remoteSsrc: u32, m: VoipMetrics)
    requires |p| >= 8 && Get32(p, 4 + 4 * 0) == ssrc
    requires p[8..] == [VOIP_METRICS, 0, 0, 8] + (PutWords([remoteSsrc]) + EncodeMetrics(m))
    requires p[0] == 0x80 && p[1] == PT_XR
    ensures ParseOne(p) == Some(ExtendedReport(ssrc, Some(VoipMetricsBlock(remoteSsrc, m))))
  {
    OneXrBlock(PutWords([remoteSsrc]) + EncodeMetrics(m), None);
    XrBodyRoundTrip(remoteSsrc, m);
  }

  lemma {:induction false} XrPacket(p: Bytes, ssrc: u32, remoteSsrc: u32, m: VoipMetrics)
    requires p == EncodeXr(ssrc, remoteSsrc, m)
    ensures ParseOne(p) == Some(ExtendedReport(ssrc, Some(VoipMetricsBlock(remoteSsrc, m))))
  {
    var block := [VOIP_METRICS, 0, 0, 8] + (PutWords([remoteSsrc]) + EncodeMetrics(m));
    var h, body := Header(0, PT_XR, 10), PutWords([ssrc]) + block;
    FieldsAt(h, [ssrc], block);
    HeaderSays(0, PT_XR, 10, body);
    XrFields(p, ssrc, remoteSsrc, m);
  }


  // ---------- compounds ----------

  /** A packet in front of a compound arrives first. */
  lemma {:induction false} ArrivesFirst(
    p: Bytes, rc: nat, pt: byte, length: u16, body: Bytes, rest: Bytes, x: RtcpPacket)
    requires rc <= 31 && |body| == 4 * length && p == Header(rc, pt, length) + body && ParseOne(p) == Some(x)
    ensures ParseCompound(p + rest) == [x] + ParseCompound(rest)
  {
    Cut(p, rc, pt, length, body, rest);
    assert ([p] + Split(rest))[1..] == Split(rest);
  }

  /** What follows the report of a compound: SDES and, when a remote source is
      known, XR. */
  function Trailer(ssrc: u32, cname: Bytes, xr: Option<VoipMetricsBlock>): Bytes {
    EncodeSdes(ssrc, cname) + EncodeOptionalXr(ssrc, xr)
  }

  function EncodeOptionalXr(ssrc: u32, xr: Option<VoipMetricsBlock>): Bytes {
    if xr.None? then [] else EncodeXr(ssrc, xr.value.sourceSsrc, xr.value.metrics)
  }

  function SentTrailer(ssrc: u32, cname: Bytes, xr: Option<VoipMetricsBlock>): seq<RtcpPacket> {
    [SourceDescription([SdesChunk(ssrc, FromUtf8(Take(cname, 255)))])] + SentXr(ssrc, xr)
  }

  function SentXr(ssrc: u32, xr: Option<VoipMetricsBlock>): seq<RtcpPacket> {
    if xr.None? then [] else [ExtendedReport(ssrc, xr)]
  }

  lemma {:induction false} XrAlone(ssrc: u32, xr: Option<VoipMetricsBlock>)
    ensures ParseCompound(EncodeOptionalXr(ssrc, xr)) == SentXr(ssrc, xr)
  {
    if xr.Some? {
      var x := EncodeXr(ssrc, xr.value.sourceSsrc, xr.value.metrics);
      var block := [VOIP_METRICS, 0, 0, 8] + (PutWords([xr.value.sourceSsrc]) + EncodeMetrics(xr.value.metrics));
      XrPacket(x, ssrc, xr.value.sourceSsrc, xr.value.metrics);
      ArrivesFirst(x, 0, PT_XR, 10, PutWords([ssrc]) + block, [], ExtendedReport(ssrc, xr));
      assert x + [] == x;
    }
  }

  lemma {:induction false} SdesAndXr(ssrc: u32, cname: Bytes, xr: Option<VoipMetricsBlock>)
    ensures ParseCompound(Trailer(ssrc, cname, xr)) == SentTrailer(ssrc, cname, xr)
  {
    hide PutWords, Padded, Header, ParseCompound, ParseOne;
    var name, rest := Take(cname, 255), EncodeOptionalXr(ssrc, xr);
    var p := EncodeSdes(ssrc, cname);
    var w := WordsFor(|name| + 3);
    SdesPacket(p, ssrc, name, w);
    ArrivesFirst(p, 1, PT_SDES, 1 + w, PutWords([ssrc]) + Padded([SDES_CNAME, |name|], name, w), rest,
                 SourceDescription([SdesChunk(ssrc, FromUtf8(name))]));
    XrAlone(ssrc, xr);
  }

  lemma {:induction false} SrArrivesFirst(
    ssrc: u32, ntp: Ntp, rtpTimestamp: u32, packetCount: u32, octetCount: u32, blocks: seq<ReportBlock>, rest: Bytes)
    ensures ParseCompound(EncodeSr(ssrc, ntp, rtpTimestamp, packetCount, octetCount, blocks) + rest)
         == [SentSr(ssrc, ntp, rtpTimestamp, packetCount, octetCount, blocks)] + ParseCompound(rest)
  {
    hide PutWords, EncodeBlocks, Header, ParseCompound, ParseOne;
    var p := EncodeSr(ssrc, ntp, rtpTimestamp, packetCount, octetCount, blocks);
    var bs := Take(blocks, 31);
    var ws := [ssrc, ntp.seconds, ntp.fraction, rtpTimestamp, packetCount, octetCount];
    SrPacket(p, ws, bs);
    ArrivesFirst(p, |bs|, PT_SR, 6 + 6 * |bs|, PutWords(ws) + EncodeBlocks(bs), rest,
                 SentSr(ssrc, ntp, rtpTimestamp, packetCount, octetCount, blocks));
  }

  /** What arrives of any sender's compound: SR, SDES and, when a remote source
      is known, XR, in this order; at most 31 blocks, the low 24 bits of the
      losses, and the CNAME if its first 255 bytes are whole characters. */
  lemma {:induction false} CompoundSrRoundTrip(
    ssrc: u32, ntp: Ntp, rtpTimestamp: u32, packetCount: u32, octetCount: u32, blocks: seq<ReportBlock>,
    cname: Bytes, xr: Option<VoipMetricsBlock>)
    ensures ParseCompound(EncodeSr(ssrc, ntp, rtpTimestamp, packetCount, octetCount, blocks) + Trailer(ssrc, cname, xr))
         == [SentSr(ssrc, ntp, rtpTimestamp, packetCount, octetCount, blocks)] + SentTrailer(ssrc, cname, xr)
  {
    SrArrivesFirst(ssrc, ntp, rtpTimestamp, packetCount, octetCount, blocks, Trailer(ssrc, cname, xr));
    SdesAndXr(ssrc, cname, xr);
  }

  /** The same of a receiver's compound, which starts with an RR. */
  lemma {:induction false} CompoundRrRoundTrip(
    ssrc: u32, blocks: seq<ReportBlock>, cname: Bytes, xr: Option<VoipMetricsBlock>)
    ensures ParseCompound(EncodeRr(ssrc, blocks) + Trailer(ssrc, cname, xr))
         == [ReceiverReport(ssrc, SentBlocks(Take(blocks, 31)))] + SentTrailer(ssrc, cname, xr)
  {
    hide PutWords, EncodeBlocks, Header, ParseCompound, ParseOne, Trailer, SentTrailer;
    var rest := Trailer(ssrc, cname, xr);
    var p := EncodeRr(ssrc, blocks);
    var bs := Take(blocks, 31);
    RrPacket(p, ssrc, bs);
    ArrivesFirst(p, |bs|, PT_RR, 1 + 6 * |bs|, PutWords([ssrc]) + EncodeBlocks(bs), rest,
                 ReceiverReport(ssrc, SentBlocks(bs)));
    SdesAndXr(ssrc, cname, xr);
  }

  /** What arrives of any BYE, before anything else: at most 31 sources, and the reason if its first
      255 bytes are whole characters. */
  lemma {:induction false} ByeRoundTrip(sources: seq<u32>, reason: Option<Bytes>, rest: Bytes)
    ensures ParseCompound(EncodeBye(sources, reason) + rest)
         == [Goodbye(Take(sources, 31), SentReason(reason))] + ParseCompound(rest)
  {
    hide PutWords, EncodeReason, Header, ParseCompound, ParseOne, SentReason;
    var p := EncodeBye(sources, reason);
    var ss := Take(sources, 31);
    ByePacket(p, ss, reason);
    ArrivesFirst(p, |ss|, PT_BYE, |ss| + ReasonWords(reason), PutWords(ss) + EncodeReason(reason), rest,
                 Goodbye(ss, SentReason(reason)));
  }

  /** The blocks of a report arrive unchanged exactly when there are at most 31
      of them and every loss count fits 24 bits. */
  lemma {:induction false} BlocksArriveIff(bs: seq<ReportBlock>)
    ensures SentBlocks(Take(bs, 31)) == bs
       <==> |bs| <= 31 && forall i :: 0 <= i < |bs| ==> -0x80_0000 <= bs[i].cumulativeLost <= 0x7F_FFFF
  {
    if SentBlocks(Take(bs, 31)) == bs {
      forall i | 0 <= i < |bs|
        ensures -0x80_0000 <= bs[i].cumulativeLost <= 0x7F_FFFF
      {
        assert bs[i] == SentBlocks(Take(bs, 31))[i] == SentBlock(bs[i]);
      }
    }
  }

  /** A text arrives exactly when its first 255 bytes are whole characters, and
      arrives whole exactly when it is valid and no longer than that. */
  lemma {:induction false} TextArrivesIff(text: Bytes)
    ensures FromUtf8(Take(text, 255)) == Some(text) <==> |text| <= 255 && ValidUtf8(text)
  {
  }
}
