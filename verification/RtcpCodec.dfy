/** RTCP packets and their bytes (src/rtp/rtcp.rs): sections 6.4 to 6.6 of
    RFC 3550 and section 4.7 of RFC 3611. Strings are their UTF-8 bytes. */
module RtcpCodec {
  import opened Words

  const PT_SR: byte := 200
  const PT_RR: byte := 201
  const PT_SDES: byte := 202
  const PT_BYE: byte := 203
  const PT_XR: byte := 207
  const SDES_CNAME: byte := 1
  const VOIP_METRICS: byte := 7

  type Bytes = seq<byte>

  // ---------- big-endian words ----------

  function Join16(a: byte, b: byte): u16 {
    var x: int, y: int := a, b;
    x * 0x100 + y
  }

  function Join32(a: byte, b: byte, c: byte, d: byte): u32 {
    var x: int, y: int := Join16(a, b), Join16(c, d);
    x * 0x1_0000 + y
  }

  function Get16(data: Bytes, o: nat): u16
    requires o + 2 <= |data|
  {
    Join16(data[o], data[o + 1])
  }

  function Get32(data: Bytes, o: nat): u32
    requires o + 4 <= |data|
  {
    Join32(data[o], data[o + 1], data[o + 2], data[o + 3])
  }

  function Put32(x: u32): (r: Bytes)
    ensures |r| == 4
  {
    var high, low := x / 0x1_0000, x % 0x1_0000;
    [high / 0x100, high % 0x100, low / 0x100, low % 0x100]
  }

  /** Words one after the other. */
  function PutWords(ws: seq<u32>): (r: Bytes)
    ensures |r| == 4 * |ws|
  {
    if ws == [] then [] else Put32(ws[0]) + PutWords(ws[1..])
  }

  // ---------- packets ----------

  datatype Ntp = Ntp(seconds: u32, fraction: u32)

  /** `cumulativeLost` is a signed 32-bit field of which 24 bits are sent. */
  datatype ReportBlock = ReportBlock(
    ssrc: u32, fractionLost: byte, cumulativeLost: int, extendedHighestSeq: u32, jitter: u32,
    lastSr: u32, delaySinceLastSr: u32)

  datatype VoipMetrics = VoipMetrics(
    lossRate: byte, discardRate: byte, burstDensity: byte, gapDensity: byte,
    burstDuration: u16, gapDuration: u16, roundTripDelay: u16, endSystemDelay: u16,
    signalLevel: byte, noiseLevel: byte, rerl: byte, gmin: byte,
    rFactor: byte, extRFactor: byte, mosLq: byte, mosCq: byte, rxConfig: byte,
    jbNominal: u16, jbMaximum: u16, jbAbsMax: u16)

  datatype VoipMetricsBlock = VoipMetricsBlock(sourceSsrc: u32, metrics: VoipMetrics)

  datatype SdesChunk = SdesChunk(ssrc: u32, cname: Option<Bytes>)

  datatype RtcpPacket =
    | SenderReport(ssrc: u32, ntp: Ntp, rtpTimestamp: u32, packetCount: u32, octetCount: u32, blocks: seq<ReportBlock>)
    | ReceiverReport(ssrc: u32, blocks: seq<ReportBlock>)
    | SourceDescription(chunks: seq<SdesChunk>)
    | Goodbye(sources: seq<u32>, reason: Option<Bytes>)
    | ExtendedReport(ssrc: u32, metrics: Option<VoipMetricsBlock>)
    | Unknown(packetType: byte)

  // ---------- UTF-8 ----------

  predicate Between(b: byte, low: int, high: int) {
    low <= b <= high
  }

  /** The length of the well-formed UTF-8 sequence that `s` starts with, or 0. */
  function Utf8Lead(s: Bytes): (n: nat)
    ensures n <= |s|
  {
    if |s| >= 1 && s[0] < 0x80 then 1
    else if |s| >= 2 && Between(s[0], 0xC2, 0xDF) && Between(s[1], 0x80, 0xBF) then 2
    else if |s| >= 3 && Between(s[2], 0x80, 0xBF)
      && ((s[0] == 0xE0 && Between(s[1], 0xA0, 0xBF)) || (s[0] == 0xED && Between(s[1], 0x80, 0x9F))
          || ((Between(s[0], 0xE1, 0xEC) || Between(s[0], 0xEE, 0xEF)) && Between(s[1], 0x80, 0xBF))) then 3
    else if |s| >= 4 && Between(s[2], 0x80, 0xBF) && Between(s[3], 0x80, 0xBF)
      && ((s[0] == 0xF0 && Between(s[1], 0x90, 0xBF)) || (s[0] == 0xF4 && Between(s[1], 0x80, 0x8F))
          || (Between(s[0], 0xF1, 0xF3) && Between(s[1], 0x80, 0xBF))) then 4
    else 0
  }

  predicate ValidUtf8(s: Bytes) {
    s == [] || (Utf8Lead(s) > 0 && ValidUtf8(s[Utf8Lead(s)..]))
  }

  /** `String::from_utf8(..).ok()` */
  function FromUtf8(s: Bytes): Option<Bytes> {
    if ValidUtf8(s) then Some(s) else None
  }

  // ---------- building ----------

  function Zeros(n: nat): (r: Bytes)
    ensures |r| == n
  {
    seq(n, _ => 0)
  }

  function Take<T>(s: seq<T>, n: nat): (r: seq<T>)
    ensures |r| == Min(|s|, n)
  {
    if |s| <= n then s else s[..n]
  }

  /** The number of 32-bit words that hold `n` bytes. */
  function WordsFor(n: nat): (w: nat)
    ensures n <= 4 * w <= n + 3
  {
    (n + 3) / 4
  }

  /** The next 32-bit boundary at or after `n`. */
  function Aligned(n: nat): nat {
    4 * WordsFor(n)
  }

  /** The common header; `length` is the packet's length in words, less one. */
  function Header(rc: nat, pt: byte, length: u16): (r: Bytes)
    requires rc <= 31
    ensures |r| == 4
  {
    [0x80 + rc, pt, length / 0x100, length % 0x100]
  }

  /** The second word holds 8 bits of fraction lost and 24 of cumulative loss. */
  function EncodeBlock(b: ReportBlock): (r: Bytes)
    ensures |r| == 24
  {
    PutWords([b.ssrc, LossWord(b.fractionLost, b.cumulativeLost % 0x100_0000),
           b.extendedHighestSeq, b.jitter, b.lastSr, b.delaySinceLastSr])
  }

  function LossWord(fraction: int, lost: int): u32
    requires 0 <= fraction < 0x100 && 0 <= lost < 0x100_0000
  {
    fraction * 0x100_0000 + lost
  }

  function EncodeBlocks(bs: seq<ReportBlock>): (r: Bytes)
    ensures |r| == 24 * |bs|
  {
    if bs == [] then [] else EncodeBlock(bs[0]) + EncodeBlocks(bs[1..])
  }

  function EncodeSr(ssrc: u32, ntp: Ntp, rtpTimestamp: u32, packetCount: u32, octetCount: u32, blocks: seq<ReportBlock>)
    : (r: Bytes)
    ensures |r| == 28 + 24 * Min(|blocks|, 31)
  {
    var bs := Take(blocks, 31);
    Header(|bs|, PT_SR, 6 + 6 * |bs|)
    + (PutWords([ssrc, ntp.seconds, ntp.fraction, rtpTimestamp, packetCount, octetCount]) + EncodeBlocks(bs))
  }

  function EncodeRr(ssrc: u32, blocks: seq<ReportBlock>): (r: Bytes)
    ensures |r| == 8 + 24 * Min(|blocks|, 31)
  {
    var bs := Take(blocks, 31);
    Header(|bs|, PT_RR, 1 + 6 * |bs|) + (PutWords([ssrc]) + EncodeBlocks(bs))
  }

  function EncodeSdes(ssrc: u32, cname: Bytes): (r: Bytes)
    ensures |r| == 8 + Aligned(Min(|cname|, 255) + 3)
  {
    var name := Take(cname, 255);
    var w := WordsFor(|name| + 3);
    Header(1, PT_SDES, 1 + w) + (PutWords([ssrc]) + Padded([SDES_CNAME, |name|], name, w))
  }

  /** A lead, a text and zeros up to `w` words. */
  function Padded(lead: Bytes, text: Bytes, w: nat): (r: Bytes)
    requires |lead| + |text| <= 4 * w
    ensures |r| == 4 * w
  {
    lead + (text + Zeros(4 * w - |lead| - |text|))
  }

  function ReasonWords(reason: Option<Bytes>): (w: nat)
    ensures w <= 64
  {
    if reason.None? then 0 else WordsFor(1 + Min(|reason.value|, 255))
  }

  function EncodeReason(reason: Option<Bytes>): (r: Bytes)
    ensures |r| == 4 * ReasonWords(reason)
  {
    if reason.None? then []
    else
      var text := Take(reason.value, 255);
      Padded([|text|], text, ReasonWords(reason))
  }

  function EncodeBye(sources: seq<u32>, reason: Option<Bytes>): (r: Bytes)
    ensures |r| == 4 + 4 * Min(|sources|, 31) + 4 * ReasonWords(reason)
  {
    var ss := Take(sources, 31);
    Header(|ss|, PT_BYE, |ss| + ReasonWords(reason)) + (PutWords(ss) + EncodeReason(reason))
  }

  function High(x: u16): byte {
    x / 0x100
  }

  function Low(x: u16): byte {
    x % 0x100
  }

  function EncodeMetrics(m: VoipMetrics): (r: Bytes)
    ensures |r| == 28
  {
    [m.lossRate, m.discardRate, m.burstDensity, m.gapDensity,
     High(m.burstDuration), Low(m.burstDuration), High(m.gapDuration), Low(m.gapDuration),
     High(m.roundTripDelay), Low(m.roundTripDelay), High(m.endSystemDelay), Low(m.endSystemDelay),
     m.signalLevel, m.noiseLevel, m.rerl, m.gmin, m.rFactor, m.extRFactor, m.mosLq, m.mosCq, m.rxConfig, 0,
     High(m.jbNominal), Low(m.jbNominal), High(m.jbMaximum), Low(m.jbMaximum), High(m.jbAbsMax), Low(m.jbAbsMax)]
  }

  /** One XR block: its type, its length of 8 words after the first, and its body. */
  function EncodeXr(ssrc: u32, remoteSsrc: u32, m: VoipMetrics): (r: Bytes)
    ensures |r| == 44
  {
    Header(0, PT_XR, 10) + (PutWords([ssrc]) + ([VOIP_METRICS, 0, 0, 8] + (PutWords([remoteSsrc]) + EncodeMetrics(m))))
  }

  // ---------- parsing ----------

  function ParseBlock(d: Bytes): ReportBlock
    requires |d| >= 24
  {
    var high: int, low: int := d[5], Get16(d, 6);
    var raw := high * 0x1_0000 + low;
    ReportBlock(Get32(d, 0), d[4], if raw >= 0x80_0000 then raw - 0x100_0000 else raw,
                Get32(d, 8), Get32(d, 12), Get32(d, 16), Get32(d, 20))
  }

  /** At most `rc` report blocks, as many as the bytes hold. */
  function ParseBlocks(d: Bytes, rc: nat): seq<ReportBlock>
    decreases rc
  {
    if rc == 0 || |d| < 24 then [] else [ParseBlock(d)] + ParseBlocks(d[24..], rc - 1)
  }

  function ParseSr(d: Bytes, rc: nat): Option<RtcpPacket> {
    if |d| < 28 then None
    else Some(SenderReport(Get32(d, 4), Ntp(Get32(d, 8), Get32(d, 12)), Get32(d, 16), Get32(d, 20), Get32(d, 24),
                           ParseBlocks(d[28..], rc)))
  }

  function ParseRr(d: Bytes, rc: nat): Option<RtcpPacket> {
    if |d| < 8 then None else Some(ReceiverReport(Get32(d, 4), ParseBlocks(d[8..], rc)))
  }

  /** The items of an SDES chunk from offset `o`: where they end, and the CNAME. */
  function ParseItems(d: Bytes, o: nat, cname: Option<Bytes>): (nat, Option<Bytes>)
    decreases |d| - o
  {
    if o >= |d| then (o, cname)
    else if d[o] == 0 then (Aligned(o + 1), cname)
    else if o + 2 > |d| || o + 2 + d[o + 1] > |d| then (o, cname)
    else
      var item := d[o + 2..o + 2 + d[o + 1]];
      ParseItems(d, o + 2 + d[o + 1], if d[o] == SDES_CNAME then FromUtf8(item) else cname)
  }

  function ParseChunks(d: Bytes, o: nat, sc: nat): seq<SdesChunk>
    decreases sc
  {
    if sc == 0 || o + 4 > |d| then []
    else
      var (next, cname) := ParseItems(d, o + 4, None);
      [SdesChunk(Get32(d, o), cname)] + ParseChunks(d, next, sc - 1)
  }

  function ParseSdes(d: Bytes, sc: nat): Option<RtcpPacket> {
    Some(SourceDescription(ParseChunks(d, 4, sc)))
  }

  function ParseSources(d: Bytes, sc: nat): seq<u32>
    decreases sc
  {
    if sc == 0 || |d| < 4 then [] else [Get32(d, 0)] + ParseSources(d[4..], sc - 1)
  }

  function ParseReason(d: Bytes): Option<Bytes> {
    if d == [] || 1 + d[0] > |d| then None else FromUtf8(d[1..1 + d[0]])
  }

  function ParseBye(d: Bytes, sc: nat): Option<RtcpPacket>
    requires |d| >= 4
  {
    var sources := ParseSources(d[4..], sc);
    SourcesFit(d[4..], sc);
    Some(Goodbye(sources, ParseReason(d[4 + 4 * |sources|..])))
  }

  lemma {:induction false} SourcesFit(d: Bytes, sc: nat)
    ensures 4 * |ParseSources(d, sc)| <= |d|
    decreases sc
  {
    if sc == 0 || |d| < 4 {
    } else {
      SourcesFit(d[4..], sc - 1);
    }
  }

  function ParseMetrics(d: Bytes): Option<VoipMetrics> {
    if |d| < 28 then None
    else Some(VoipMetrics(d[0], d[1], d[2], d[3], Get16(d, 4), Get16(d, 6), Get16(d, 8), Get16(d, 10),
                          d[12], d[13], d[14], d[15], d[16], d[17], d[18], d[19], d[20],
                          Get16(d, 22), Get16(d, 24), Get16(d, 26)))
  }

  /** The VoIP metrics of the last such block among the XR blocks in `d`. */
  function ParseXrBlocks(d: Bytes, found: Option<VoipMetricsBlock>): Option<VoipMetricsBlock>
    decreases |d|
  {
    if |d| < 4 then found
    else
      var len := Get16(d, 2) * 4;
      if 4 + len > |d| then found
      else ParseXrBlocks(d[4 + len..], ReadXrBlock(d[0], d[4..4 + len], found))
  }

  function ReadXrBlock(blockType: byte, body: Bytes, found: Option<VoipMetricsBlock>): Option<VoipMetricsBlock> {
    if blockType == VOIP_METRICS && |body| >= 32
    then Some(VoipMetricsBlock(Get32(body, 0), ParseMetrics(body[4..]).value)) else found
  }

  function ParseXr(d: Bytes): Option<RtcpPacket> {
    if |d| < 8 then None else Some(ExtendedReport(Get32(d, 4), ParseXrBlocks(d[8..], None)))
  }

  /** One packet, without its padding. */
  function ParseOne(d: Bytes): Option<RtcpPacket>
    requires |d| >= 4
  {
    var rc := d[0] % 0x20;
    if d[1] == PT_SR then ParseSr(d, rc)
    else if d[1] == PT_RR then ParseRr(d, rc)
    else if d[1] == PT_SDES then ParseSdes(d, rc)
    else if d[1] == PT_BYE then ParseBye(d, rc)
    else if d[1] == PT_XR then ParseXr(d)
    else Some(Unknown(d[1]))
  }

  /** Removes the padding announced by the header's padding bit. */
  function Unpadded(d: Bytes): (r: Bytes)
    requires |d| >= 4
    ensures |r| >= 4
  {
    if d[0] / 0x20 % 2 == 1 && |d| >= 5 && 0 < d[|d| - 1] < |d| - 4 then d[..|d| - d[|d| - 1]] else d
  }

  function PacketLength(d: Bytes): nat
    requires |d| >= 4
  {
    (Get16(d, 2) + 1) * 4
  }

  /** The packets of a compound, each without its padding, up to the first
      header that is not of version 2 or does not fit. */
  function Split(d: Bytes): seq<Bytes>
    ensures forall p :: p in Split(d) ==> |p| >= 4
    decreases |d|
  {
    if |d| < 4 || d[0] / 0x40 != 2 || PacketLength(d) > |d| then []
    else [Unpadded(d[..PacketLength(d)])] + Split(d[PacketLength(d)..])
  }

  /** The packets that parse, in order. */
  function ParseAll(ps: seq<Bytes>): seq<RtcpPacket>
    requires forall p :: p in ps ==> |p| >= 4
  {
    if ps == [] then []
    else
      var p := ParseOne(ps[0]);
      (if p.Some? then [p.value] else []) + ParseAll(ps[1..])
  }

  function ParseCompound(d: Bytes): seq<RtcpPacket> {
    ParseAll(Split(d))
  }
}
