/** The RTCP builders, which write into a caller's buffer, and the parsers,
    which loop over offsets, proved against the byte-level definitions. */
module RtcpBuffers {
  import opened Words
  import opened RtcpCodec

  // ---------- writing ----------

  /** `after` is `before` with `bytes` written at `at`. */
  ghost predicate Wrote(before: Bytes, after: Bytes, at: nat, bytes: Bytes) {
    && |after| == |before| && at + |bytes| <= |before|
    && after[..at] == before[..at] && after[at..at + |bytes|] == bytes
    && after[at + |bytes|..] == before[at + |bytes|..]
  }

  lemma {:induction false} WroteBoth(a: Bytes, b: Bytes, c: Bytes, at: nat, x: Bytes, y: Bytes)
    requires Wrote(a, b, at, x) && Wrote(b, c, at + |x|, y)
    ensures Wrote(a, c, at, x + y)
  {
    var mid, end := at + |x|, at + |x| + |y|;
    assert c[..at] == c[..mid][..at] == b[..mid][..at] == b[..at];
    assert c[at..mid] == c[..mid][at..] == b[..mid][at..] == b[at..mid];
    assert c[at..end] == c[at..mid] + c[mid..end];
    assert b[end..] == b[mid..][|y|..] == a[mid..][|y|..] == a[end..];
  }

  method Put(buf: array<byte>, at: nat, bytes: Bytes)
    requires at + |bytes| <= buf.Length
    modifies buf
    ensures Wrote(old(buf[..]), buf[..], at, bytes)
  {
    var i := 0;
    while i < |bytes|
      invariant 0 <= i <= |bytes|
      invariant forall k :: 0 <= k < buf.Length ==>
        buf[k] == if at <= k < at + i then bytes[k - at] else old(buf[k])
    {
      buf[at + i] := bytes[i];
      i := i + 1;
    }
  }

  method WriteHeader(buf: array<byte>, at: nat, rc: nat, pt: byte, length: u16)
    requires rc <= 31 && at + 4 <= buf.Length
    modifies buf
    ensures Wrote(old(buf[..]), buf[..], at, Header(rc, pt, length))
  {
    Put(buf, at, [0x80 + rc, pt, length / 0x100, length % 0x100]);
  }

  lemma {:induction false} NextWord(done: Bytes, ws: seq<u32>, i: nat)
    requires i < |ws|
    ensures done + PutWords(ws[i..]) == (done + Put32(ws[i])) + PutWords(ws[i + 1..])
  {
    assert ws[i..][1..] == ws[i + 1..];
  }

  lemma {:induction false} NextBlock(done: Bytes, bs: seq<ReportBlock>, i: nat)
    requires i < |bs|
    ensures done + EncodeBlocks(bs[i..]) == (done + EncodeBlock(bs[i])) + EncodeBlocks(bs[i + 1..])
  {
    assert bs[i..][1..] == bs[i + 1..];
  }

  /** Big-endian fields, one after the other. */
  method WriteWords(buf: array<byte>, at: nat, ws: seq<u32>)
    requires at + 4 * |ws| <= buf.Length
    modifies buf
    ensures Wrote(old(buf[..]), buf[..], at, PutWords(ws))
  {
    var i := 0;
    ghost var done: Bytes := [];
    while i < |ws|
      invariant 0 <= i <= |ws| && |done| == 4 * i
      invariant Wrote(old(buf[..]), buf[..], at, done)
      invariant done + PutWords(ws[i..]) == PutWords(ws)
    {
      ghost var before := buf[..];
      Put(buf, at + 4 * i, Put32(ws[i]));
      WroteBoth(old(buf[..]), before, buf[..], at, done, Put32(ws[i]));
      NextWord(done, ws, i);
      done := done + Put32(ws[i]);
      i := i + 1;
    }
    assert done + [] == done;
  }

  method WriteBlock(buf: array<byte>, at: nat, b: ReportBlock)
    requires at + 24 <= buf.Length
    modifies buf
    ensures Wrote(old(buf[..]), buf[..], at, EncodeBlock(b))
  {
    var loss := LossWord(b.fractionLost, b.cumulativeLost % 0x100_0000);
    WriteWords(buf, at, [b.ssrc, loss, b.extendedHighestSeq, b.jitter, b.lastSr, b.delaySinceLastSr]);
  }

  method WriteBlocks(buf: array<byte>, at: nat, bs: seq<ReportBlock>)
    requires at + 24 * |bs| <= buf.Length
    modifies buf
    ensures Wrote(old(buf[..]), buf[..], at, EncodeBlocks(bs))
  {
    var i := 0;
    ghost var done: Bytes := [];
    while i < |bs|
      invariant 0 <= i <= |bs| && |done| == 24 * i
      invariant Wrote(old(buf[..]), buf[..], at, done)
      invariant done + EncodeBlocks(bs[i..]) == EncodeBlocks(bs)
    {
      ghost var before := buf[..];
      WriteBlock(buf, at + 24 * i, bs[i]);
      WroteBoth(old(buf[..]), before, buf[..], at, done, EncodeBlock(bs[i]));
      NextBlock(done, bs, i);
      done := done + EncodeBlock(bs[i]);
      i := i + 1;
    }
    assert done + [] == done;
  }

  /** The header and the words that follow it in every packet. */
  method WriteStart(buf: array<byte>, at: nat, rc: nat, pt: byte, length: u16, ws: seq<u32>)
    requires rc <= 31 && at + 4 + 4 * |ws| <= buf.Length
    modifies buf
    ensures Wrote(old(buf[..]), buf[..], at, Header(rc, pt, length) + PutWords(ws))
  {
    WriteHeader(buf, at, rc, pt, length);
    ghost var before := buf[..];
    WriteWords(buf, at + 4, ws);
    WroteBoth(old(buf[..]), before, buf[..], at, Header(rc, pt, length), PutWords(ws));
  }

  /** A packet is complete when what follows its first words is. */
  lemma {:induction false} WroteRest(a: Bytes, b: Bytes, c: Bytes, at: nat, h: Bytes, ws: Bytes, rest: Bytes)
    requires Wrote(a, b, at, h + ws) && Wrote(b, c, at + |h| + |ws|, rest)
    ensures Wrote(a, c, at, h + (ws + rest))
  {
    WroteBoth(a, b, c, at, h + ws, rest);
    assert (h + ws) + rest == h + (ws + rest);
  }

  method BuildSenderReport(
    buf: array<byte>, at: nat, ssrc: u32, ntp: Ntp, rtpTimestamp: u32, packetCount: u32, octetCount: u32,
    blocks: seq<ReportBlock>) returns (n: nat)
    requires at + 28 + 24 * Min(|blocks|, 31) <= buf.Length
    modifies buf
    ensures n == |EncodeSr(ssrc, ntp, rtpTimestamp, packetCount, octetCount, blocks)|
    ensures Wrote(old(buf[..]), buf[..], at, EncodeSr(ssrc, ntp, rtpTimestamp, packetCount, octetCount, blocks))
  {
    hide Wrote, Header, PutWords, EncodeBlocks;
    var bs := Take(blocks, 31);
    var ws := [ssrc, ntp.seconds, ntp.fraction, rtpTimestamp, packetCount, octetCount];
    WriteStart(buf, at, |bs|, PT_SR, 6 + 6 * |bs|, ws);
    ghost var before := buf[..];
    WriteBlocks(buf, at + 28, bs);
    WroteRest(old(buf[..]), before, buf[..], at, Header(|bs|, PT_SR, 6 + 6 * |bs|), PutWords(ws), EncodeBlocks(bs));
    n := 28 + 24 * |bs|;
  }

  method BuildReceiverReport(buf: array<byte>, at: nat, ssrc: u32, blocks: seq<ReportBlock>) returns (n: nat)
    requires at + 8 + 24 * Min(|blocks|, 31) <= buf.Length
    modifies buf
    ensures n == |EncodeRr(ssrc, blocks)|
    ensures Wrote(old(buf[..]), buf[..], at, EncodeRr(ssrc, blocks))
  {
    var bs := Take(blocks, 31);
    WriteStart(buf, at, |bs|, PT_RR, 1 + 6 * |bs|, [ssrc]);
    ghost var before := buf[..];
    WriteBlocks(buf, at + 8, bs);
    WroteRest(old(buf[..]), before, buf[..], at, Header(|bs|, PT_RR, 1 + 6 * |bs|), PutWords([ssrc]), EncodeBlocks(bs));
    n := 8 + 24 * |bs|;
  }

  /** A type or length, the text, and zeros up to the next word. */
  method WritePadded(buf: array<byte>, at: nat, lead: Bytes, text: Bytes, w: nat)
    requires |lead| + |text| <= 4 * w && at + 4 * w <= buf.Length
    modifies buf
    ensures Wrote(old(buf[..]), buf[..], at, Padded(lead, text, w))
  {
    hide Wrote, Zeros;
    Put(buf, at, lead);
    ghost var b1 := buf[..];
    Put(buf, at + |lead|, text);
    ghost var b2 := buf[..];
    var zeros := Zeros(4 * w - |lead| - |text|);
    Put(buf, at + |lead| + |text|, zeros);
    WroteBoth(b1, b2, buf[..], at + |lead|, text, zeros);
    WroteBoth(old(buf[..]), b1, buf[..], at, lead, text + zeros);
  }

  method BuildSdesCname(buf: array<byte>, at: nat, ssrc: u32, cname: Bytes) returns (n: nat)
    requires at + 8 + 4 * WordsFor(Min(|cname|, 255) + 3) <= buf.Length
    modifies buf
    ensures n == 8 + 4 * WordsFor(Min(|cname|, 255) + 3)
    ensures Wrote(old(buf[..]), buf[..], at, EncodeSdes(ssrc, cname))
  {
    hide Wrote, Header, PutWords, Padded;
    var name := Take(cname, 255);
    var w := WordsFor(|name| + 3);
    WriteStart(buf, at, 1, PT_SDES, 1 + w, [ssrc]);
    ghost var before := buf[..];
    WritePadded(buf, at + 8, [SDES_CNAME, |name|], name, w);
    WroteRest(old(buf[..]), before, buf[..], at, Header(1, PT_SDES, 1 + w), PutWords([ssrc]),
              Padded([SDES_CNAME, |name|], name, w));
    n := 8 + 4 * w;
  }

  method WriteReason(buf: array<byte>, at: nat, reason: Option<Bytes>)
    requires at + 4 * ReasonWords(reason) <= buf.Length
    modifies buf
    ensures Wrote(old(buf[..]), buf[..], at, EncodeReason(reason))
  {
    if reason.Some? {
      var text := Take(reason.value, 255);
      WritePadded(buf, at, [|text|], text, WordsFor(1 + |text|));
    }
  }

  method BuildBye(buf: array<byte>, at: nat, sources: seq<u32>, reason: Option<Bytes>) returns (n: nat)
    requires at + 4 + 4 * Min(|sources|, 31) + 4 * ReasonWords(reason) <= buf.Length
    modifies buf
    ensures n == 4 + 4 * Min(|sources|, 31) + 4 * ReasonWords(reason)
    ensures Wrote(old(buf[..]), buf[..], at, EncodeBye(sources, reason))
  {
    hide Wrote, Header, PutWords, EncodeReason, ReasonWords;
    var ss := Take(sources, 31);
    var length := |ss| + ReasonWords(reason);
    WriteStart(buf, at, |ss|, PT_BYE, length, ss);
    ghost var before := buf[..];
    WriteReason(buf, at + 4 + 4 * |ss|, reason);
    WroteRest(old(buf[..]), before, buf[..], at, Header(|ss|, PT_BYE, length), PutWords(ss), EncodeReason(reason));
    n := 4 + 4 * length;
  }

  /** The single block of an XR packet. */
  method WriteXrBlock(buf: array<byte>, at: nat, remoteSsrc: u32, m: VoipMetrics)
    requires at + 36 <= buf.Length
    modifies buf
    ensures Wrote(old(buf[..]), buf[..], at, [VOIP_METRICS, 0, 0, 8] + (PutWords([remoteSsrc]) + EncodeMetrics(m)))
  {
    Put(buf, at, [VOIP_METRICS, 0, 0, 8]);
    ghost var b1 := buf[..];
    WriteWords(buf, at + 4, [remoteSsrc]);
    ghost var b2 := buf[..];
    Put(buf, at + 8, EncodeMetrics(m));
    WroteBoth(b1, b2, buf[..], at + 4, PutWords([remoteSsrc]), EncodeMetrics(m));
    WroteBoth(old(buf[..]), b1, buf[..], at, [VOIP_METRICS, 0, 0, 8], PutWords([remoteSsrc]) + EncodeMetrics(m));
  }

  method BuildXr(buf: array<byte>, at: nat, ssrc: u32, remoteSsrc: u32, m: VoipMetrics) returns (n: nat)
    requires at + 44 <= buf.Length
    modifies buf
    ensures n == 44 && Wrote(old(buf[..]), buf[..], at, EncodeXr(ssrc, remoteSsrc, m))
  {
    WriteStart(buf, at, 0, PT_XR, 10, [ssrc]);
    ghost var before := buf[..];
    WriteXrBlock(buf, at + 8, remoteSsrc, m);
    WroteRest(old(buf[..]), before, buf[..], at, Header(0, PT_XR, 10), PutWords([ssrc]),
              [VOIP_METRICS, 0, 0, 8] + (PutWords([remoteSsrc]) + EncodeMetrics(m)));
    n := 44;
  }

  method BuildCompoundSr(
    buf: array<byte>, ssrc: u32, ntp: Ntp, rtpTimestamp: u32, packetCount: u32, octetCount: u32,
    blocks: seq<ReportBlock>, cname: Bytes) returns (n: nat)
    requires |EncodeSr(ssrc, ntp, rtpTimestamp, packetCount, octetCount, blocks)
              + EncodeSdes(ssrc, cname)| <= buf.Length
    modifies buf
    ensures n <= buf.Length
    ensures buf[..n] == EncodeSr(ssrc, ntp, rtpTimestamp, packetCount, octetCount, blocks) + EncodeSdes(ssrc, cname)
    ensures buf[n..] == old(buf[n..])
  {
    var a := BuildSenderReport(buf, 0, ssrc, ntp, rtpTimestamp, packetCount, octetCount, blocks);
    ghost var before := buf[..];
    var b := BuildSdesCname(buf, a, ssrc, cname);
    ghost var sr := EncodeSr(ssrc, ntp, rtpTimestamp, packetCount, octetCount, blocks);
    WroteBoth(old(buf[..]), before, buf[..], 0, sr, EncodeSdes(ssrc, cname));
    n := a + b;
  }

  method BuildCompoundRr(buf: array<byte>, ssrc: u32, blocks: seq<ReportBlock>, cname: Bytes) returns (n: nat)
    requires |EncodeRr(ssrc, blocks) + EncodeSdes(ssrc, cname)| <= buf.Length
    modifies buf
    ensures n <= buf.Length && buf[..n] == EncodeRr(ssrc, blocks) + EncodeSdes(ssrc, cname)
    ensures buf[n..] == old(buf[n..])
  {
    var a := BuildReceiverReport(buf, 0, ssrc, blocks);
    ghost var before := buf[..];
    var b := BuildSdesCname(buf, a, ssrc, cname);
    WroteBoth(old(buf[..]), before, buf[..], 0, EncodeRr(ssrc, blocks), EncodeSdes(ssrc, cname));
    n := a + b;
  }

  // ---------- parsing ----------

  /** One turn of the report block loop; `done` are the blocks before it. */
  lemma {:induction false} BlockStep(data: Bytes, at: nat, left: nat, done: seq<ReportBlock>)
    requires at <= |data| && left > 0
    ensures done + ParseBlocks(data[at..], left) ==
      if at + 24 > |data| then done
      else (done + [ParseBlock(data[at..])]) + ParseBlocks(data[at + 24..], left - 1)
  {
    if at + 24 <= |data| {
      assert data[at..][24..] == data[at + 24..];
    }
  }

  lemma {:induction false} NoBlocksLeft(d: Bytes)
    ensures ParseBlocks(d, 0) == []
  {
  }

  method ReadBlocks(data: Bytes, start: nat, rc: nat) returns (blocks: seq<ReportBlock>)
    requires start <= |data|
    ensures blocks == ParseBlocks(data[start..], rc)
  {
    hide ParseBlocks, ParseBlock;
    blocks := [];
    var at, left := start, rc;
    while left > 0
      invariant 0 <= at <= |data|
      invariant blocks + ParseBlocks(data[at..], left) == ParseBlocks(data[start..], rc)
    {
      BlockStep(data, at, left, blocks);
      if at + 24 > |data| {
        return;
      }
      blocks := blocks + [ParseBlock(data[at..])];
      at, left := at + 24, left - 1;
    }
    NoBlocksLeft(data[at..]);
    assert blocks + [] == blocks;
  }

  method ReadItems(data: Bytes, start: nat) returns (next: nat, cname: Option<Bytes>)
    ensures (next, cname) == ParseItems(data, start, None)
  {
    next, cname := start, None;
    while next < |data|
      invariant ParseItems(data, next, cname) == ParseItems(data, start, None)
      decreases |data| - next
    {
      if data[next] == 0 {
        next := Aligned(next + 1);
        return;
      }
      if next + 2 > |data| || next + 2 + data[next + 1] > |data| {
        return;
      }
      var end := next + 2 + data[next + 1];
      if data[next] == SDES_CNAME {
        cname := FromUtf8(data[next + 2..end]);
      }
      next := end;
    }
  }

  method ReadChunks(data: Bytes, sc: nat) returns (chunks: seq<SdesChunk>)
    ensures chunks == ParseChunks(data, 4, sc)
  {
    chunks := [];
    var i := 0;
    var offset: nat := 4;
    while i < sc
      invariant 0 <= i <= sc
      invariant chunks + ParseChunks(data, offset, sc - i) == ParseChunks(data, 4, sc)
    {
      if offset + 4 > |data| {
        return;
      }
      var ssrc := Get32(data, offset);
      var next, cname := ReadItems(data, offset + 4);
      chunks := chunks + [SdesChunk(ssrc, cname)];
      offset := next;
      i := i + 1;
    }
  }

  method ReadSources(data: Bytes, sc: nat) returns (sources: seq<u32>, offset: nat)
    requires |data| >= 4
    ensures sources == ParseSources(data[4..], sc) && offset == 4 + 4 * |sources| <= |data|
  {
    sources, offset := [], 4;
    var i := 0;
    while i < sc
      invariant 0 <= i <= sc && offset == 4 + 4 * |sources| <= |data|
      invariant sources + ParseSources(data[offset..], sc - i) == ParseSources(data[4..], sc)
    {
      if offset + 4 > |data| {
        return;
      }
      assert data[offset..][4..] == data[offset + 4..];
      sources := sources + [Get32(data, offset)];
      offset := offset + 4;
      i := i + 1;
    }
  }

  method ReadXrBlocks(data: Bytes, start: nat) returns (found: Option<VoipMetricsBlock>)
    requires start <= |data|
    ensures found == ParseXrBlocks(data[start..], None)
  {
    found := None;
    var offset := start;
    while offset + 4 <= |data|
      invariant start <= offset <= |data|
      invariant ParseXrBlocks(data[offset..], found) == ParseXrBlocks(data[start..], None)
      decreases |data| - offset
    {
      var len := Get16(data, offset + 2) * 4;
      assert Get16(data[offset..], 2) == Get16(data, offset + 2);
      if offset + 4 + len > |data| {
        return;
      }
      var body := data[offset + 4..offset + 4 + len];
      assert data[offset..][4..4 + len] == body;
      assert data[offset..][4 + len..] == data[offset + 4 + len..];
      found := ReadXrBlock(data[offset], body, found);
      offset := offset + 4 + len;
    }
  }

  method ReadOne(data: Bytes) returns (packet: Option<RtcpPacket>)
    requires |data| >= 4
    ensures packet == ParseOne(data)
  {
    var rc, pt := data[0] % 0x20, data[1];
    if pt == PT_SR {
      if |data| < 28 {
        return None;
      }
      var blocks := ReadBlocks(data, 28, rc);
      packet := Some(SenderReport(Get32(data, 4), Ntp(Get32(data, 8), Get32(data, 12)), Get32(data, 16),
                                  Get32(data, 20), Get32(data, 24), blocks));
    } else if pt == PT_RR {
      if |data| < 8 {
        return None;
      }
      var blocks := ReadBlocks(data, 8, rc);
      packet := Some(ReceiverReport(Get32(data, 4), blocks));
    } else if pt == PT_SDES {
      var chunks := ReadChunks(data, rc);
      packet := Some(SourceDescription(chunks));
    } else if pt == PT_BYE {
      var sources, offset := ReadSources(data, rc);
      packet := Some(Goodbye(sources, ParseReason(data[offset..])));
    } else if pt == PT_XR {
      if |data| < 8 {
        return None;
      }
      var found := ReadXrBlocks(data, 8);
      packet := Some(ExtendedReport(Get32(data, 4), found));
    } else {
      packet := Some(Unknown(pt));
    }
  }

  /** Where the packet at `offset` ends, by its header's length. */
  function EndOf(data: Bytes, offset: nat): nat
    requires offset + 4 <= |data|
  {
    offset + (Get16(data, offset + 2) + 1) * 4
  }

  predicate FitsAt(data: Bytes, offset: nat)
    requires offset + 4 <= |data|
  {
    data[offset] / 0x40 == 2 && EndOf(data, offset) <= |data|
  }

  /** One turn of the parser, at an offset. */
  lemma {:induction false} SplitAt(data: Bytes, offset: nat)
    requires offset + 4 <= |data|
    ensures Split(data[offset..]) ==
      if !FitsAt(data, offset) then []
      else [Unpadded(data[offset..EndOf(data, offset)])] + Split(data[EndOf(data, offset)..])
  {
    var rest := data[offset..];
    assert rest[0] == data[offset] && rest[2] == data[offset + 2] && rest[3] == data[offset + 3];
    assert offset + PacketLength(rest) == EndOf(data, offset);
    if FitsAt(data, offset) {
      assert rest[..PacketLength(rest)] == data[offset..EndOf(data, offset)];
      assert rest[PacketLength(rest)..] == data[EndOf(data, offset)..];
    }
  }

  lemma {:induction false} ParseLast(ps: seq<Bytes>, p: Bytes)
    requires |p| >= 4 && forall q :: q in ps ==> |q| >= 4
    ensures ParseAll(ps + [p]) == ParseAll(ps) + (if ParseOne(p).Some? then [ParseOne(p).value] else [])
  {
    if ps == [] {
      assert ParseAll([p][1..]) == [];
    } else {
      assert (ps + [p])[1..] == ps[1..] + [p];
      ParseLast(ps[1..], p);
    }
  }

  /** The next packet at `offset`, without its padding, and where it ends. */
  method NextPacket(data: Bytes, offset: nat) returns (p: Option<Bytes>, next: nat)
    requires offset <= |data|
    ensures p.None? ==> next == offset && Split(data[offset..]) == []
    ensures p.Some? ==>
      |p.value| >= 4 && offset < next <= |data| && Split(data[offset..]) == [p.value] + Split(data[next..])
  {
    if offset + 4 > |data| {
      return None, offset;
    }
    SplitAt(data, offset);
    if !FitsAt(data, offset) {
      return None, offset;
    }
    next := EndOf(data, offset);
    p := Some(Unpadded(data[offset..next]));
  }

  ghost predicate Parsed(done: seq<Bytes>, packets: seq<RtcpPacket>) {
    (forall q :: q in done ==> |q| >= 4) && packets == ParseAll(done)
  }

  /** Parses one more packet, after those in `done`. */
  method ReadAfter(ghost done: seq<Bytes>, packets: seq<RtcpPacket>, p: Bytes) returns (r: seq<RtcpPacket>)
    requires Parsed(done, packets) && |p| >= 4
    ensures Parsed(done + [p], r)
  {
    ParseLast(done, p);
    var packet := ReadOne(p);
    r := if packet.Some? then packets + [packet.value] else packets;
  }

  lemma {:induction false} Regroup(done: seq<Bytes>, p: Bytes, rest: seq<Bytes>)
    ensures done + ([p] + rest) == (done + [p]) + rest
  {
  }

  /** What is left to parse: nothing, or `p` and what follows at `offset`. */
  ghost function Remaining(data: Bytes, p: Option<Bytes>, offset: nat): seq<Bytes>
    requires offset <= |data|
  {
    if p.None? then [] else [p.value] + Split(data[offset..])
  }

  method SplitAndParse(data: Bytes) returns (packets: seq<RtcpPacket>, ghost done: seq<Bytes>)
    ensures done == Split(data) && Parsed(done, packets)
  {
    packets, done := [], [];
    assert data[0..] == data;
    var p, offset := NextPacket(data, 0);
    while p.Some?
      invariant offset <= |data| && Parsed(done, packets) && (p.Some? ==> |p.value| >= 4)
      invariant Split(data) == done + Remaining(data, p, offset)
      decreases |data| - offset, p.Some?
    {
      Regroup(done, p.value, Split(data[offset..]));
      packets := ReadAfter(done, packets, p.value);
      done := done + [p.value];
      p, offset := NextPacket(data, offset);
    }
    assert done + [] == done;
  }

  method ParseRtcpCompound(data: Bytes) returns (packets: seq<RtcpPacket>)
    ensures packets == ParseCompound(data)
  {
    ghost var done;
    packets, done := SplitAndParse(data);
  }
}
