/** Parsing what other implementations send: any list of SDES items, several chunks,
    profile extensions, padding, other XR blocks, unknown packets and garbage. */
module RtcpForeign {
  import opened Words
  import opened RtcpCodec
  import opened RtcpRoundTrip

  // ---------- where the fields lie ----------

  /** The number that bytes write, the first being the most significant. */
  function BigEndian(d: Bytes): nat {
    if d == [] then 0 else BigEndian(d[..|d| - 1]) * 256 + d[|d| - 1]
  }

  lemma {:induction false} BigEndianOfTwo(a: byte, b: byte)
    ensures BigEndian([a, b]) == Join16(a, b)
  {
    assert [a, b][..1] == [a] && [a][..0] == [];
    assert BigEndian([a]) == a;
  }

  lemma {:induction false} BigEndianOfFour(a: byte, b: byte, c: byte, e: byte)
    ensures BigEndian([a, b, c, e]) == Join32(a, b, c, e)
  {
    assert [a, b, c, e][..3] == [a, b, c] && [a, b, c][..2] == [a, b];
    BigEndianOfTwo(a, b);
    BigEndianOfTwo(c, e);
  }

  lemma {:induction false} WordIsBigEndian(d: Bytes, o: nat)
    requires o + 4 <= |d|
    ensures Get32(d, o) == BigEndian(d[o..o + 4])
  {
    assert d[o..o + 4] == [d[o], d[o + 1], d[o + 2], d[o + 3]];
    BigEndianOfFour(d[o], d[o + 1], d[o + 2], d[o + 3]);
  }

  lemma {:induction false} HalfIsBigEndian(d: Bytes, o: nat)
    requires o + 2 <= |d|
    ensures Get16(d, o) == BigEndian(d[o..o + 2])
  {
    assert d[o..o + 2] == [d[o], d[o + 1]];
    BigEndianOfTwo(d[o], d[o + 1]);
  }

  /** A report block as section 6.4.1 of RFC 3550 lays it out. */
  lemma {:induction false} BlockLayout(d: Bytes)
    requires |d| >= 24
    ensures var b := ParseBlock(d);
      && b.ssrc == BigEndian(d[0..4]) && b.fractionLost == d[4]
      && (b.cumulativeLost == BigEndian(d[5..8]) || b.cumulativeLost == BigEndian(d[5..8]) - 0x100_0000)
      && -0x80_0000 <= b.cumulativeLost < 0x80_0000
      && b.extendedHighestSeq == BigEndian(d[8..12]) && b.jitter == BigEndian(d[12..16])
      && b.lastSr == BigEndian(d[16..20]) && b.delaySinceLastSr == BigEndian(d[20..24])
  {
    hide Get32;
    WholeWords(d);
    WordIsBigEndian(d, 0);
    WordIsBigEndian(d, 8);
    WordIsBigEndian(d, 12);
    WordIsBigEndian(d, 16);
    WordIsBigEndian(d, 20);
    LossLayout(d);
  }

  lemma {:induction false} LossLayout(d: Bytes)
    requires |d| >= 24
    ensures var lost, b := BigEndian(d[5..8]), ParseBlock(d);
      && b.fractionLost == d[4] && b.cumulativeLost == if lost >= 0x80_0000 then lost - 0x100_0000 else lost
    ensures BigEndian(d[5..8]) < 0x100_0000
  {
    hide Get32;
    assert d[5..8][..2] == [d[5], d[6]] && d[5..8] == [d[5], d[6], d[7]];
    BigEndianOfTwo(d[5], d[6]);
  }

  /** A sender report's fields, likewise. */
  lemma {:induction false} SrLayout(d: Bytes, rc: nat)
    requires |d| >= 28 && ParseSr(d, rc).Some?
    ensures var p := ParseSr(d, rc).value;
      && p.SenderReport? && p.ssrc == BigEndian(d[4..8])
      && p.ntp.seconds == BigEndian(d[8..12]) && p.ntp.fraction == BigEndian(d[12..16])
      && p.rtpTimestamp == BigEndian(d[16..20]) && p.packetCount == BigEndian(d[20..24])
      && p.octetCount == BigEndian(d[24..28])
  {
    hide Get32, ParseBlocks;
    WordIsBigEndian(d, 4);
    WordIsBigEndian(d, 8);
    WordIsBigEndian(d, 12);
    WordIsBigEndian(d, 16);
    WordIsBigEndian(d, 20);
    WordIsBigEndian(d, 24);
  }

  /** The VoIP metrics of section 4.7 of RFC 3611, after the source. */
  lemma {:induction false} MetricsLayout(d: Bytes)
    requires |d| >= 28 && ParseMetrics(d).Some?
    ensures var m := ParseMetrics(d).value;
      && m.lossRate == d[0] && m.discardRate == d[1] && m.burstDensity == d[2] && m.gapDensity == d[3]
      && m.burstDuration == BigEndian(d[4..6]) && m.gapDuration == BigEndian(d[6..8])
      && m.roundTripDelay == BigEndian(d[8..10]) && m.endSystemDelay == BigEndian(d[10..12])
      && m.signalLevel == d[12] && m.noiseLevel == d[13] && m.rerl == d[14] && m.gmin == d[15]
      && m.rFactor == d[16] && m.extRFactor == d[17] && m.mosLq == d[18] && m.mosCq == d[19] && m.rxConfig == d[20]
      && m.jbNominal == BigEndian(d[22..24]) && m.jbMaximum == BigEndian(d[24..26])
      && m.jbAbsMax == BigEndian(d[26..28])
  {
    hide Get16;
    HalfIsBigEndian(d, 4);
    HalfIsBigEndian(d, 6);
    HalfIsBigEndian(d, 8);
    HalfIsBigEndian(d, 10);
    HalfIsBigEndian(d, 22);
    HalfIsBigEndian(d, 24);
    HalfIsBigEndian(d, 26);
  }

  /** The byte that the standard reserves is sent as zero. */
  lemma {:induction false} ReservedIsZero(m: VoipMetrics)
    ensures EncodeMetrics(m)[21] == 0
  {
  }

  // ---------- source descriptions ----------

  datatype Item = Item(kind: byte, text: Bytes)

  datatype Chunk = Chunk(ssrc: u32, items: seq<Item>)

  predicate Writable(items: seq<Item>) {
    forall i :: 0 <= i < |items| ==> items[i].kind != 0 && |items[i].text| <= 255
  }

  function PutItems(items: seq<Item>): Bytes
    requires Writable(items)
  {
    if items == [] then [] else [items[0].kind, |items[0].text|] + items[0].text + PutItems(items[1..])
  }

  /** The text of the last item of type 1, if there is one and it is text. */
  function CnameOf(items: seq<Item>): Option<Bytes> {
    if items == [] then None
    else if items[|items| - 1].kind == 1 then FromUtf8(items[|items| - 1].text)
    else CnameOf(items[..|items| - 1])
  }

  /** The same when `so` stood before these items. */
  function CnameAfter(so: Option<Bytes>, items: seq<Item>): Option<Bytes> {
    if exists i :: 0 <= i < |items| && items[i].kind == 1 then CnameOf(items) else so
  }

  lemma {:induction false} CnameFirst(so: Option<Bytes>, items: seq<Item>)
    requires items != []
    ensures CnameAfter(so, items)
         == CnameAfter(if items[0].kind == 1 then FromUtf8(items[0].text) else so, items[1..])
  {
    hide FromUtf8;
    var rest := items[1..];
    CnameTail(items);
    if i :| 0 <= i < |items| && items[i].kind == 1 {
      if i > 0 {
        assert rest[i - 1].kind == 1;
      }
    }
    assert forall i :: 0 <= i < |rest| ==> rest[i] == items[i + 1];
  }

  lemma {:induction false} CnameTail(items: seq<Item>)
    requires items != []
    ensures CnameOf(items) == if exists i :: 0 <= i < |items| - 1 && items[1..][i].kind == 1 then CnameOf(items[1..])
                              else if items[0].kind == 1 then FromUtf8(items[0].text) else None
  {
    hide FromUtf8;
    var n := |items| - 1;
    if n == 0 {
    } else if items[n].kind == 1 {
      assert items[1..][n - 1].kind == 1;
    } else {
      CnameTail(items[..n]);
      assert items[..n][1..] == items[1..][..n - 1];
      if i :| 0 <= i < n && items[1..][i].kind == 1 {
        assert items[..n][1..][i].kind == 1;
      }
    }
  }

  /** `part` lies in `d` at `o`. */
  predicate At(d: Bytes, o: nat, part: Bytes) {
    o + |part| <= |d| && d[o..o + |part|] == part
  }

  lemma {:induction false} PartsAt(d: Bytes, o: nat, a: Bytes, b: Bytes)
    requires At(d, o, a + b)
    ensures At(d, o, a) && At(d, o + |a|, b)
  {
    Peel(a, b);
    assert d[o..o + |a|] == d[o..o + |a + b|][..|a|];
    assert d[o + |a|..o + |a| + |b|] == d[o..o + |a + b|][|a|..];
  }

  /** Whatever items there are, they are all passed over, and the CNAME noted. */
  lemma {:induction false} ItemsRead(d: Bytes, o: nat, items: seq<Item>, so: Option<Bytes>)
    requires Writable(items) && At(d, o, PutItems(items))
    ensures ParseItems(d, o, so) == ParseItems(d, o + |PutItems(items)|, CnameAfter(so, items))
    decreases |items|
  {
    hide FromUtf8, CnameAfter, ParseItems;
    if items == [] {
      NothingAfter(so);
    } else {
      var i := items[0];
      PartsAt(d, o, [i.kind, |i.text|] + i.text, PutItems(items[1..]));
      ItemRead(d, o, i, so);
      CnameFirst(so, items);
      ItemsRead(d, o + 2 + |i.text|, items[1..], if i.kind == 1 then FromUtf8(i.text) else so);
    }
  }

  lemma {:induction false} ItemRead(d: Bytes, o: nat, i: Item, so: Option<Bytes>)
    requires i.kind != 0 && |i.text| <= 255 && At(d, o, [i.kind, |i.text|] + i.text)
    ensures ParseItems(d, o, so)
         == ParseItems(d, o + 2 + |i.text|, if i.kind == 1 then FromUtf8(i.text) else so)
  {
    hide FromUtf8;
    PartsAt(d, o, [i.kind, |i.text|], i.text);
    assert d[o..o + 2][0] == i.kind && d[o..o + 2][1] == |i.text|;
  }

  lemma {:induction false} ItemsEnd(d: Bytes, o: nat, so: Option<Bytes>)
    requires o < |d| && d[o] == 0
    ensures ParseItems(d, o, so) == (Aligned(o + 1), so)
  {
  }

  lemma {:induction false} NothingAfter(so: Option<Bytes>)
    ensures CnameAfter(so, []) == so
  {
  }

  /** A chunk: its source, its items, and zeros up to the next word, at least one. */
  function PutChunk(c: Chunk): Bytes
    requires Writable(c.items)
  {
    var items := PutItems(c.items);
    PutWords([c.ssrc]) + (items + Zeros(4 - |items| % 4))
  }

  function PutChunks(cs: seq<Chunk>): Bytes
    requires forall i :: 0 <= i < |cs| ==> Writable(cs[i].items)
  {
    if cs == [] then [] else PutChunk(cs[0]) + PutChunks(cs[1..])
  }

  function Described(cs: seq<Chunk>): (r: seq<SdesChunk>)
    ensures |r| == |cs|
  {
    seq(|cs|, i requires 0 <= i < |cs| => SdesChunk(cs[i].ssrc, CnameOf(cs[i].items)))
  }

  lemma {:induction false} AlignsToWord(o: nat, n: nat)
    requires o % 4 == 0
    ensures Aligned(o + n + 1) == o + n + (4 - n % 4) && (o + n + (4 - n % 4)) % 4 == 0
  {
  }

  lemma {:induction false} ChunkRead(d: Bytes, o: nat, c: Chunk)
    requires o % 4 == 0 && Writable(c.items) && At(d, o, PutChunk(c))
    ensures Get32(d, o) == c.ssrc && (o + |PutChunk(c)|) % 4 == 0
    ensures ParseItems(d, o + 4, None) == (o + |PutChunk(c)|, CnameOf(c.items))
  {
    hide PutItems, CnameOf, Get32, ParseItems, Aligned, PutWords;
    var items := PutItems(c.items);
    var zeros := Zeros(4 - |items| % 4);
    PartsAt(d, o, PutWords([c.ssrc]), items + zeros);
    PartsAt(d, o + 4, items, zeros);
    WordAt(d, o, c.ssrc);
    ItemsRead(d, o + 4, c.items, None);
    assert zeros[0] == 0 && At(d, o + 4 + |items|, zeros);
    assert d[o + 4 + |items|..o + 4 + |items| + |zeros|][0] == zeros[0];
    ItemsEnd(d, o + 4 + |items|, CnameOf(c.items));
    AlignsToWord(o + 4, |items|);
    CnameAlone(c.items);
  }

  lemma {:induction false} CnameAlone(items: seq<Item>)
    ensures CnameAfter(None, items) == CnameOf(items)
  {
    hide FromUtf8;
    if items != [] && items[|items| - 1].kind != 1 {
      CnameAlone(items[..|items| - 1]);
    }
  }

  lemma {:induction false} WordAt(d: Bytes, o: nat, x: u32)
    requires At(d, o, PutWords([x]))
    ensures Get32(d, o) == x
  {
    hide Get32, PutWords;
    WordsAt([x], 0, []);
    assert PutWords([x]) + [] == PutWords([x]) == d[o..o + 4];
    Shifted(d[..o], d[o..], 0);
    assert d[..o] + d[o..] == d;
    Leading(d[o..], d[o..o + 4]);
  }

  lemma {:induction false} Leading(d: Bytes, w: Bytes)
    requires |w| == 4 && |d| >= 4 && d[..4] == w
    ensures Get32(d, 0) == Get32(w, 0)
  {
    assert d[0] == w[0] && d[1] == w[1] && d[2] == w[2] && d[3] == w[3];
  }

  lemma {:induction false} ChunksRead(d: Bytes, o: nat, cs: seq<Chunk>, more: nat)
    requires o % 4 == 0 && (forall i :: 0 <= i < |cs| ==> Writable(cs[i].items)) && At(d, o, PutChunks(cs))
    ensures ParseChunks(d, o, |cs| + more) == Described(cs) + ParseChunks(d, o + |PutChunks(cs)|, more)
    ensures (o + |PutChunks(cs)|) % 4 == 0
    decreases |cs|
  {
    hide PutChunk, CnameOf, Writable, ParseChunks;
    if cs == [] {
      assert Described(cs) == [];
    } else {
      PartsAt(d, o, PutChunk(cs[0]), PutChunks(cs[1..]));
      FirstChunk(d, o, cs[0], |cs| - 1 + more);
      ChunksRead(d, o + |PutChunk(cs[0])|, cs[1..], more);
      assert Described(cs) == [SdesChunk(cs[0].ssrc, CnameOf(cs[0].items))] + Described(cs[1..]);
    }
  }

  lemma {:induction false} FirstChunk(d: Bytes, o: nat, c: Chunk, n: nat)
    requires o % 4 == 0 && Writable(c.items) && At(d, o, PutChunk(c))
    ensures (o + |PutChunk(c)|) % 4 == 0
    ensures ParseChunks(d, o, n + 1) == [SdesChunk(c.ssrc, CnameOf(c.items))] + ParseChunks(d, o + |PutChunk(c)|, n)
  {
    hide PutChunk, CnameOf, Get32, Writable, ParseItems;
    ChunkIsLong(c);
    ChunkRead(d, o, c);
  }

  /** An item that begins but does not fit. */
  predicate Stub(s: Bytes) {
    s == [] || (s[0] != 0 && (|s| == 1 || |s| - 2 < s[1]))
  }

  /** A chunk cut short in the middle of an item says what stood before. */
  lemma {:induction false} CutChunkRead(d: Bytes, o: nat, c: Chunk, stub: Bytes)
    requires Writable(c.items) && o <= |d| && d[o..] == PutWords([c.ssrc]) + (PutItems(c.items) + stub) && Stub(stub)
    ensures ParseChunks(d, o, 1) == [SdesChunk(c.ssrc, CnameOf(c.items))]
  {
    hide PutItems, CnameOf, Get32, PutWords;
    var items := PutItems(c.items);
    var end := o + 4 + |items|;
    PartsAt(d, o, PutWords([c.ssrc]), items + stub);
    PartsAt(d, o + 4, items, stub);
    WordAt(d, o, c.ssrc);
    ItemsRead(d, o + 4, c.items, None);
    CnameAlone(c.items);
    assert d[end..] == stub;
    assert ParseItems(d, end, CnameOf(c.items)) == (end, CnameOf(c.items));
    assert ParseChunks(d, end, 0) == [];
  }

  lemma {:induction false} ChunkIsLong(c: Chunk)
    requires Writable(c.items)
    ensures |PutChunk(c)| >= 4
  {
  }

  // ---------- other blocks of an extended report ----------

  /** An XR block: its type, a byte of its own, and whole words. */
  datatype XrBlock = XrBlock(kind: byte, own: byte, body: Bytes)

  predicate Blocks(bs: seq<XrBlock>) {
    forall i :: 0 <= i < |bs| ==> |bs[i].body| % 4 == 0 && |bs[i].body| / 4 <= U16_MAX
  }

  function PutXrBlock(b: XrBlock): Bytes
    requires |b.body| / 4 <= U16_MAX
  {
    var words := |b.body| / 4;
    [b.kind, b.own, words / 0x100, words % 0x100] + b.body
  }

  function PutXrBlocks(bs: seq<XrBlock>): Bytes
    requires Blocks(bs)
  {
    if bs == [] then [] else PutXrBlock(bs[0]) + PutXrBlocks(bs[1..])
  }

  /** The metrics of the last block of type 7 with room for them. */
  function MetricsOf(bs: seq<XrBlock>, so: Option<VoipMetricsBlock>): Option<VoipMetricsBlock> {
    if bs == [] then so
    else
      var b := bs[|bs| - 1];
      if b.kind == 7 && |b.body| >= 32
      then Some(VoipMetricsBlock(Get32(b.body, 0), ParseMetrics(b.body[4..]).value))
      else MetricsOf(bs[..|bs| - 1], so)
  }

  lemma {:induction false} MetricsFirst(bs: seq<XrBlock>, so: Option<VoipMetricsBlock>)
    requires bs != []
    ensures MetricsOf(bs, so) == MetricsOf(bs[1..], ReadXrBlock(bs[0].kind, bs[0].body, so))
  {
    hide ParseMetrics, Get32;
    var n := |bs| - 1;
    if n == 0 {
      assert bs[..0] == [];
    } else if bs[n].kind == 7 && |bs[n].body| >= 32 {
      assert bs[1..][n - 1] == bs[n];
    } else {
      MetricsFirst(bs[..n], so);
      assert bs[..n][1..] == bs[1..][..n - 1] && bs[1..][n - 1] == bs[n];
    }
  }

  lemma {:induction false} OneXrBlockRead(b: XrBlock, rest: Bytes)
    requires |b.body| % 4 == 0 && |b.body| / 4 <= U16_MAX
    ensures var d := PutXrBlock(b) + rest;
      && |d| >= 4 + |b.body| && Get16(d, 2) * 4 == |b.body| && d[0] == b.kind
      && d[4..4 + |b.body|] == b.body && d[4 + |b.body|..] == rest
  {
    HalfRoundTrip(|b.body| / 4);
  }

  /** Blocks of other types are passed over, whatever their length. */
  lemma {:induction false} XrBlocksRead(bs: seq<XrBlock>, so: Option<VoipMetricsBlock>)
    requires Blocks(bs)
    ensures ParseXrBlocks(PutXrBlocks(bs), so) == MetricsOf(bs, so)
  {
    hide ReadXrBlock, Get16, PutXrBlock;
    if bs == [] {
    } else {
      OneXrBlockRead(bs[0], PutXrBlocks(bs[1..]));
      MetricsFirst(bs, so);
      XrBlocksRead(bs[1..], ReadXrBlock(bs[0].kind, bs[0].body, so));
    }
  }

  // ---------- packets ----------

  /** A packet of another implementation: a report may have fewer blocks than it says,
      and anything behind them; a BYE anything behind its sources. */
  datatype Foreign =
    | Sender(ssrc: u32, ntp: Ntp, rtpTimestamp: u32, packetCount: u32, octetCount: u32, rc: nat,
             blocks: seq<ReportBlock>, extra: Bytes)
    | Receiver(ssrc: u32, rc: nat, blocks: seq<ReportBlock>, extra: Bytes)
    | Description(chunks: seq<Chunk>)
    | CutDescription(chunks: seq<Chunk>, last: Chunk, stub: Bytes)
    | Leaving(sources: seq<u32>, tail: Bytes)
    | Extended(ssrc: u32, xrBlocks: seq<XrBlock>)
    | Other(pt: byte, rc: nat, content: Bytes)
    | TooShort(pt: byte, rc: nat, content: Bytes)

  predicate Counts(rc: nat, blocks: seq<ReportBlock>, extra: Bytes) {
    |blocks| <= rc <= 31 && (rc == |blocks| || |extra| < 24)
  }

  predicate Proper(f: Foreign) {
    match f
    case Sender(_, _, _, _, _, rc, blocks, extra) => Counts(rc, blocks, extra)
    case Receiver(_, rc, blocks, extra) => Counts(rc, blocks, extra)
    case Description(chunks) => |chunks| <= 31 && forall i :: 0 <= i < |chunks| ==> Writable(chunks[i].items)
    case CutDescription(chunks, last, stub) =>
      && |chunks| < 31 && (forall i :: 0 <= i < |chunks| ==> Writable(chunks[i].items))
      && Writable(last.items) && Stub(stub)
    case Leaving(sources, _) => |sources| <= 31
    case Extended(_, bs) => Blocks(bs)
    case Other(pt, rc, _) => rc <= 31 && pt !in {200, 201, 202, 203, 207}
    case TooShort(pt, rc, content) =>
      rc <= 31 && ((pt == 200 && |content| < 24) || (pt in {201, 207} && |content| < 4))
  }

  function Type(f: Foreign): byte {
    match f
    case Sender(_, _, _, _, _, _, _, _) => 200
    case Receiver(_, _, _, _) => 201
    case Description(_) => 202
    case CutDescription(_, _, _) => 202
    case Leaving(_, _) => 203
    case Extended(_, _) => 207
    case Other(pt, _, _) => pt
    case TooShort(pt, _, _) => pt
  }

  function Count(f: Foreign): nat {
    match f
    case Sender(_, _, _, _, _, rc, _, _) => rc
    case Receiver(_, rc, _, _) => rc
    case Description(chunks) => |chunks|
    case CutDescription(chunks, _, _) => |chunks| + 1
    case Leaving(sources, _) => |sources|
    case Extended(_, _) => 0
    case Other(_, rc, _) => rc
    case TooShort(_, rc, _) => rc
  }

  /** What follows the header. */
  function Content(f: Foreign): Bytes
    requires Proper(f)
  {
    match f
    case Sender(ssrc, ntp, ts, packets, octets, _, blocks, extra) =>
      PutWords([ssrc, ntp.seconds, ntp.fraction, ts, packets, octets]) + (EncodeBlocks(blocks) + extra)
    case Receiver(ssrc, _, blocks, extra) => PutWords([ssrc]) + (EncodeBlocks(blocks) + extra)
    case Description(chunks) => PutChunks(chunks)
    case CutDescription(chunks, last, stub) =>
      PutChunks(chunks) + (PutWords([last.ssrc]) + (PutItems(last.items) + stub))
    case Leaving(sources, tail) => PutWords(sources) + tail
    case Extended(ssrc, bs) => PutWords([ssrc]) + PutXrBlocks(bs)
    case Other(_, _, content) => content
    case TooShort(_, _, content) => content
  }

  /** A length and that many bytes of text, if they are there. */
  function ReasonIn(tail: Bytes): Option<Bytes> {
    if tail == [] then None
    else
      var n: int := tail[0];
      if |tail| >= n + 1 then FromUtf8(tail[1..n + 1]) else None
  }

  /** What the packet says; one too short says nothing. */
  function Meaning(f: Foreign): seq<RtcpPacket> {
    match f
    case Sender(ssrc, ntp, ts, packets, octets, _, blocks, _) =>
      [SenderReport(ssrc, ntp, ts, packets, octets, SentBlocks(blocks))]
    case Receiver(ssrc, _, blocks, _) => [ReceiverReport(ssrc, SentBlocks(blocks))]
    case Description(chunks) => [SourceDescription(Described(chunks))]
    case CutDescription(chunks, last, _) => [SourceDescription(Described(chunks + [last]))]
    case Leaving(sources, tail) => [Goodbye(sources, ReasonIn(tail))]
    case Extended(ssrc, bs) => [ExtendedReport(ssrc, MetricsOf(bs, None))]
    case Other(pt, _, _) => [Unknown(pt)]
    case TooShort(_, _, _) => []
  }

  lemma {:induction false} BlocksAndMore(bs: seq<ReportBlock>, rc: nat, extra: Bytes)
    requires Counts(rc, bs, extra)
    ensures ParseBlocks(EncodeBlocks(bs) + extra, rc) == SentBlocks(bs)
  {
    hide ParseBlock, EncodeBlock, SentBlock;
    if bs == [] {
    } else {
      var tail := EncodeBlocks(bs[1..]) + extra;
      assert EncodeBlocks(bs) + extra == EncodeBlock(bs[0]) + tail;
      BlockRoundTrip(bs[0], tail);
      Peel(EncodeBlock(bs[0]), tail);
      BlocksAndMore(bs[1..], rc - 1, extra);
      assert SentBlocks(bs) == [SentBlock(bs[0])] + SentBlocks(bs[1..]);
    }
  }

  function AsList(p: Option<RtcpPacket>): seq<RtcpPacket> {
    if p.Some? then [p.value] else []
  }

  /** The header of a packet of this type and count, padded or not. */
  predicate Heads(h: Bytes, rc: nat, pt: byte) {
    |h| == 4 && h[0] % 0x20 == rc && h[1] == pt
  }

  lemma {:induction false} SenderRead(h: Bytes, f: Foreign)
    requires f.Sender? && Proper(f) && Heads(h, Count(f), Type(f))
    ensures AsList(ParseOne(h + Content(f))) == Meaning(f)
  {
    hide PutWords, EncodeBlocks, Get32, SentBlocks;
    var ws := [f.ssrc, f.ntp.seconds, f.ntp.fraction, f.rtpTimestamp, f.packetCount, f.octetCount];
    var rest := EncodeBlocks(f.blocks) + f.extra;
    var p := h + Content(f);
    FieldsAt(h, ws, rest);
    assert Get32(p, 4 + 4 * 0) == ws[0] && Get32(p, 4 + 4 * 1) == ws[1] && Get32(p, 4 + 4 * 2) == ws[2];
    assert Get32(p, 4 + 4 * 3) == ws[3] && Get32(p, 4 + 4 * 4) == ws[4] && Get32(p, 4 + 4 * 5) == ws[5];
    BlocksAndMore(f.blocks, f.rc, f.extra);
    assert ParseOne(p) == ParseSr(p, f.rc);
  }

  lemma {:induction false} ReceiverRead(h: Bytes, f: Foreign)
    requires f.Receiver? && Proper(f) && Heads(h, Count(f), Type(f))
    ensures AsList(ParseOne(h + Content(f))) == Meaning(f)
  {
    hide PutWords, EncodeBlocks, Get32, SentBlocks;
    var p := h + Content(f);
    var ws := [f.ssrc];
    FieldsAt(h, ws, EncodeBlocks(f.blocks) + f.extra);
    assert Get32(p, 4 + 4 * 0) == ws[0];
    BlocksAndMore(f.blocks, f.rc, f.extra);
    assert ParseOne(p) == ParseRr(p, f.rc);
  }

  lemma {:induction false} DescriptionRead(h: Bytes, f: Foreign)
    requires f.Description? && Proper(f) && Heads(h, Count(f), Type(f))
    ensures AsList(ParseOne(h + Content(f))) == Meaning(f)
  {
    hide PutChunks, Get32, Described;
    var p := h + Content(f);
    assert p[4..] == Content(f);
    ChunksRead(p, 4, f.chunks, 0);
    assert Described(f.chunks) + [] == Described(f.chunks);
    assert ParseOne(p) == ParseSdes(p, |f.chunks|);
  }

  lemma {:induction false} CutDescriptionRead(h: Bytes, f: Foreign)
    requires f.CutDescription? && Proper(f) && Heads(h, Count(f), Type(f))
    ensures AsList(ParseOne(h + Content(f))) == Meaning(f)
  {
    hide PutChunks, Get32, PutWords, PutItems, CnameOf, ParseItems, Writable;
    var p, chunks := h + Content(f), PutChunks(f.chunks);
    var rest := PutWords([f.last.ssrc]) + (PutItems(f.last.items) + f.stub);
    assert p[4..] == chunks + rest;
    PartsAt(p, 4, chunks, rest);
    ChunksRead(p, 4, f.chunks, 1);
    assert p[4 + |chunks|..] == rest;
    CutChunkRead(p, 4 + |chunks|, f.last, f.stub);
    assert Described(f.chunks + [f.last]) == Described(f.chunks) + [SdesChunk(f.last.ssrc, CnameOf(f.last.items))];
    assert ParseOne(p) == ParseSdes(p, |f.chunks| + 1);
  }

  lemma {:induction false} LeavingRead(h: Bytes, f: Foreign)
    requires f.Leaving? && Proper(f) && Heads(h, Count(f), Type(f))
    ensures AsList(ParseOne(h + Content(f))) == Meaning(f)
  {
    hide PutWords, Get32, FromUtf8;
    var p := h + Content(f);
    ByeParts(p, h, f.sources, f.tail);
    SourcesRoundTrip(f.sources, f.tail);
    assert ParseOne(p) == ParseBye(p, |f.sources|);
  }

  lemma {:induction false} ExtendedRead(h: Bytes, f: Foreign)
    requires f.Extended? && Proper(f) && Heads(h, Count(f), Type(f))
    ensures AsList(ParseOne(h + Content(f))) == Meaning(f)
  {
    hide PutWords, PutXrBlocks, Get32, MetricsOf;
    var p := h + Content(f);
    var ws := [f.ssrc];
    FieldsAt(h, ws, PutXrBlocks(f.xrBlocks));
    assert Get32(p, 4 + 4 * 0) == ws[0];
    XrBlocksRead(f.xrBlocks, None);
    assert ParseOne(p) == ParseXr(p);
  }

  /** One packet, whatever its header's padding bit. */
  lemma {:induction false} ForeignRead(h: Bytes, f: Foreign)
    requires Proper(f) && Heads(h, Count(f), Type(f))
    ensures AsList(ParseOne(h + Content(f))) == Meaning(f)
  {
    match f
    case Sender(_, _, _, _, _, _, _, _) => SenderRead(h, f);
    case Receiver(_, _, _, _) => ReceiverRead(h, f);
    case Description(_) => DescriptionRead(h, f);
    case CutDescription(_, _, _) => CutDescriptionRead(h, f);
    case Leaving(_, _) => LeavingRead(h, f);
    case Extended(_, _) => ExtendedRead(h, f);
    case Other(_, _, _) =>
    case TooShort(_, _, _) =>
  }

  // ---------- compounds ----------

  /** A packet and how many bytes of padding follow it; the last of them says so. */
  datatype Outgoing = Outgoing(packet: Foreign, pad: byte)

  function Padding(pad: byte): (r: Bytes)
    ensures |r| == pad
  {
    if pad == 0 then [] else Zeros(pad - 1) + [pad]
  }

  /** What can be sent: whole words, no more than the header can say, and padding only
      behind something. */
  predicate Sendable(p: Outgoing) {
    && Proper(p.packet)
    && (|Content(p.packet)| + p.pad) % 4 == 0 && (|Content(p.packet)| + p.pad) / 4 <= U16_MAX
    && (p.pad > 0 ==> Content(p.packet) != [])
  }

  function PutPacket(p: Outgoing): Bytes
    requires Sendable(p)
  {
    var words := (|Content(p.packet)| + p.pad) / 4;
    [0x80 + (if p.pad > 0 then 0x20 else 0) + Count(p.packet), Type(p.packet), words / 0x100, words % 0x100]
    + (Content(p.packet) + Padding(p.pad))
  }

  function PutAll(ps: seq<Outgoing>): Bytes
    requires forall i :: 0 <= i < |ps| ==> Sendable(ps[i])
  {
    if ps == [] then [] else PutPacket(ps[0]) + PutAll(ps[1..])
  }

  function Meanings(ps: seq<Outgoing>): seq<RtcpPacket> {
    if ps == [] then [] else Meaning(ps[0].packet) + Meanings(ps[1..])
  }

  /** No packet begins here: too few bytes, another version, or a length beyond the end. */
  predicate Garbage(tail: Bytes) {
    |tail| < 4 || tail[0] < 0x80 || tail[0] >= 0xC0 || 4 * (BigEndian(tail[2..4]) + 1) > |tail|
  }

  lemma {:induction false} GarbageEnds(tail: Bytes)
    requires Garbage(tail)
    ensures ParseCompound(tail) == []
  {
    if |tail| >= 4 {
      HalfIsBigEndian(tail, 2);
    }
  }

  lemma {:induction false} CountFits(f: Foreign)
    requires Proper(f)
    ensures Count(f) <= 31
  {
    hide Writable, Blocks;
  }

  lemma {:induction false} PaddingRemoved(h: Bytes, content: Bytes, pad: byte)
    requires |h| == 4 && (h[0] / 0x20 % 2 == 1 <==> pad > 0) && (pad > 0 ==> content != [])
    ensures Unpadded(h + (content + Padding(pad))) == h + content
  {
    var d := h + (content + Padding(pad));
    if pad > 0 {
      assert d[|d| - 1] == pad;
      assert d[..|d| - pad] == h + content;
    }
  }

  lemma {:induction false} HeaderParts(rc: nat, pt: byte, words: u16, padded: bool, rest: Bytes)
    requires rc <= 31
    ensures var h := [0x80 + (if padded then 0x20 else 0) + rc, pt, words / 0x100, words % 0x100];
      && Heads(h, rc, pt) && (h[0] / 0x20 % 2 == 1 <==> padded) && h[0] / 0x40 == 2
      && PacketLength(h + rest) == 4 * (words + 1)
  {
    HalfRoundTrip(words);
    var h := [0x80 + (if padded then 0x20 else 0) + rc, pt, words / 0x100, words % 0x100];
    assert (h + rest)[2] == h[2] && (h + rest)[3] == h[3];
  }

  lemma {:induction false} FirstPacketRead(p: Outgoing, rest: Bytes)
    requires Sendable(p)
    ensures ParseCompound(PutPacket(p) + rest) == Meaning(p.packet) + ParseCompound(rest)
  {
    hide Content, Meaning, Padding, PacketLength, Unpadded, ParseOne, Heads, Proper, Count, Type;
    var content, words := Content(p.packet), (|Content(p.packet)| + p.pad) / 4;
    var body := content + Padding(p.pad);
    CountFits(p.packet);
    HeaderParts(Count(p.packet), Type(p.packet), words, p.pad > 0, body + rest);
    var h := [0x80 + (if p.pad > 0 then 0x20 else 0) + Count(p.packet), Type(p.packet), words / 0x100, words % 0x100];
    assert PutPacket(p) + rest == h + (body + rest);
    CutsPacket(h, body, rest);
    PaddingRemoved(h, content, p.pad);
    ForeignRead(h, p.packet);
    assert ([h + content] + Split(rest))[1..] == Split(rest);
  }

  lemma {:induction false} CutsPacket(h: Bytes, body: Bytes, rest: Bytes)
    requires |h| == 4 && h[0] / 0x40 == 2 && PacketLength(h + (body + rest)) == 4 + |body|
    ensures Split(h + (body + rest)) == [Unpadded(h + body)] + Split(rest)
  {
    hide PacketLength, Unpadded;
    var d := h + (body + rest);
    assert d == (h + body) + rest;
    Peel(h + body, rest);
  }

  /** Padding that says it fills the whole packet, or more, or nothing, is not taken off:
      the packet is read with it. */
  lemma {:induction false} ImpossiblePaddingStays(h: Bytes, body: Bytes, rest: Bytes)
    requires |h| == 4 && 0xA0 <= h[0] < 0xC0 && PacketLength(h + (body + rest)) == 4 + |body|
    requires body == [] || body[|body| - 1] == 0 || body[|body| - 1] as int >= |body|
    ensures ParseCompound(h + (body + rest)) == AsList(ParseOne(h + body)) + ParseCompound(rest)
  {
    hide ParseOne, PacketLength;
    CutsPacket(h, body, rest);
    assert body != [] ==> (h + body)[|h + body| - 1] == body[|body| - 1];
    assert body == [] ==> h + body == h;
    assert Unpadded(h + body) == h + body;
    assert ([h + body] + Split(rest))[1..] == Split(rest);
  }

  /** Whatever compound of packets another implementation sends, with or without
      padding, and whatever garbage follows: the parser reads what each packet says, in
      order, and stops at the garbage. */
  lemma {:induction false} ForeignCompound(ps: seq<Outgoing>, tail: Bytes)
    requires (forall i :: 0 <= i < |ps| ==> Sendable(ps[i])) && Garbage(tail)
    ensures ParseCompound(PutAll(ps) + tail) == Meanings(ps)
  {
    hide PutPacket, Meaning, ParseCompound, Sendable, Garbage;
    if ps == [] {
      assert [] + tail == tail;
      GarbageEnds(tail);
    } else {
      FirstPacketRead(ps[0], PutAll(ps[1..]) + tail);
      ForeignCompound(ps[1..], tail);
      assert PutAll(ps) + tail == PutPacket(ps[0]) + (PutAll(ps[1..]) + tail);
    }
  }
}
