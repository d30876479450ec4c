/** The telephone-event payload of RFC 4733 (src/rtp/dtmf.rs): digits, the
    four payload bytes, and the units of its durations. */
module DtmfPayload {
  import opened Words

  /** A DTMF event code; the source keeps the sixteen codes as an enum. */
  type Event = x: int | 0 <= x <= 15

  const DIGITS := "0123456789*#ABCD"
  const DEFAULT_VOLUME: byte := 10

  function ToChar(e: Event): char {
    DIGITS[e]
  }

  function FromChar(c: char): Option<Event> {
    if '0' <= c <= '9' then Some(c as int - '0' as int)
    else if c == '*' then Some(10)
    else if c == '#' then Some(11)
    else if 'A' <= c <= 'D' then Some(12 + c as int - 'A' as int)
    else if 'a' <= c <= 'd' then Some(12 + c as int - 'a' as int)
    else None
  }

  /** Each digit's character names that digit again, and only its lower-case
      form names it besides. */
  lemma CharNamesDigit(e: Event, c: char)
    ensures FromChar(c) == Some(e) <==> c == ToChar(e) || (e >= 12 && c == (ToChar(e) as int + 32) as char)
  {
    assert DIGITS[e] as int == if e < 10 then '0' as int + e else if e == 10 then '*' as int
                               else if e == 11 then '#' as int else 'A' as int + e - 12;
  }

  datatype Payload = Payload(event: byte, isEnd: bool, volume: byte, duration: u16)

  function Serialize(p: Payload): seq<byte> {
    [p.event, (if p.isEnd then 0x80 else 0) + p.volume % 0x40, p.duration / 0x100, p.duration % 0x100]
  }

  /** Where the payload starts: some gateways put four zero bytes in front. */
  function Offset(packet: seq<byte>): (o: nat)
    requires |packet| >= 4
    ensures o + 4 <= |packet|
  {
    if |packet| >= 8 && packet[..4] == [0, 0, 0, 0] && packet[4] <= 15 then 4 else 0
  }

  function Parse(packet: seq<byte>): Option<Payload> {
    if |packet| < 4 then None
    else
      var o := Offset(packet);
      if packet[o] > 15 then None
      else
        var high: int, low: int := packet[o + 2], packet[o + 3];
        Some(Payload(packet[o], packet[o + 1] >= 0x80, packet[o + 1] % 0x40, high * 0x100 + low))
  }

  /** The bytes of a payload give it back exactly when it is a DTMF payload. */
  lemma PayloadRoundTrip(p: Payload)
    ensures Parse(Serialize(p)) == Some(p) <==> p.event <= 15 && p.volume < 0x40
  {
  }

  /** The layout of section 2.3 of RFC 4733: event, END mark and volume, duration. */
  lemma PayloadLayout(d: seq<byte>)
    requires |d| == 4
    ensures Parse(d).Some? <==> d[0] <= 15
    ensures Parse(d).Some? ==>
      var p := Parse(d).value;
      && p.event == d[0] && (p.isEnd <==> d[1] / 128 == 1) && p.volume == d[1] % 64
      && p.duration == 256 * d[2] as int + d[3] as int
  {
  }

  /** Four bytes of zero padding in front of a payload change nothing. */
  lemma PaddingIsTransparent(p: Payload)
    requires p.event <= 15
    ensures Parse([0, 0, 0, 0] + Serialize(p)) == Parse(Serialize(p))
  {
    var packet: seq<byte> := [0, 0, 0, 0] + Serialize(p);
    assert packet[..4] == [0, 0, 0, 0];
    assert packet[4..] == Serialize(p);
  }

  /** Four zero bytes in front of anything else are the digit 0 itself, of no length. */
  lemma ZerosAreNoPadding(packet: seq<byte>)
    requires |packet| >= 4 && packet[..4] == [0, 0, 0, 0] && (|packet| >= 8 ==> packet[4] > 15)
    ensures Parse(packet) == Some(Payload(0, false, 0, 0))
  {
    assert packet[0] == packet[..4][0] && packet[1] == packet[..4][1];
    assert packet[2] == packet[..4][2] && packet[3] == packet[..4][3];
  }

  /** Milliseconds to 8 kHz timestamp units, saturating at 16 bits. */
  function MsToTimestamp(ms: u32): u16 {
    Min(ms * 8, U16_MAX)
  }
}
