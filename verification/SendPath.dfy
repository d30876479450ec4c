/** The packet builder of src/rtp/packet.rs and the sending methods of the engine
    that draw on it. */
module SendPath {
  import opened Words
  import opened DtmfSending
  import opened SequenceSpace
  import Dtmf

  datatype Header = Header(payloadType: byte, number: u16, timestamp: u32, ssrc: u32, marker: bool)

  class RtpPacketBuilder {
    const payloadType: byte
    const ssrc: u32
    var number: u16
    var timestamp: u32

    constructor (payloadType: byte, ssrc: u32, number: u16, timestamp: u32)
      ensures this.number == number && this.timestamp == timestamp
      ensures this.payloadType == payloadType && this.ssrc == ssrc
    {
      this.payloadType, this.ssrc, this.number, this.timestamp := payloadType, ssrc, number, timestamp;
    }

    /** The header of the next packet; the packet's samples move the timestamp. */
    method BuildWithMarker(samples: nat, marker: bool) returns (h: Header)
      requires 0 < samples <= U32_MAX
      modifies this
      ensures h == Header(payloadType, old(number), old(timestamp), ssrc, marker)
      ensures number == Low16(old(number) + 1) && timestamp == Low32(old(timestamp) + samples)
    {
      h := Header(payloadType, number, timestamp, ssrc, marker);
      number := Low16(number + 1);
      timestamp := Low32(timestamp + samples);
    }

    method BuildNext(samples: nat) returns (h: Header)
      requires 0 < samples <= U32_MAX
      modifies this
      ensures h == Header(payloadType, old(number), old(timestamp), ssrc, false)
      ensures number == Low16(old(number) + 1) && timestamp == Low32(old(timestamp) + samples)
    {
      h := BuildWithMarker(samples, false);
    }

    method NextSequence() returns (n: u16)
      modifies `number
      ensures n == old(number) && number == Low16(old(number) + 1)
    {
      n := number;
      number := Low16(number + 1);
    }

    method SetSequence(n: u16)
      modifies `number
      ensures number == n
    {
      number := n;
    }
  }

  class Engine {
    const builder: RtpPacketBuilder
    const digits: Dtmf.DtmfSender
    var forceMarker: bool
    var inNoise: bool

    ghost function Now(): State
      reads this, builder, digits
    {
      State(builder.number, builder.timestamp, forceMarker, inNoise, digits.Now())
    }

    constructor (payloadType: byte, ssrc: u32, number: u16, timestamp: u32, dtmfPayloadType: byte, neverMarker: bool)
      ensures fresh(builder) && fresh(digits)
      ensures Now() == State(number, timestamp, true, false, Sender(dtmfPayloadType, ssrc, neverMarker, 0, None, 0, 0))
    {
      builder := new RtpPacketBuilder(payloadType, ssrc, number, timestamp);
      digits := new Dtmf.DtmfSender(ssrc, dtmfPayloadType, neverMarker);
      forceMarker, inNoise := true, false;
    }

    method SendAudio(samples: nat, marked: bool) returns (wire: seq<Wire>)
      requires Sendable(Audio(samples, marked))
      modifies this, builder
      ensures (Now(), wire) == Step(old(Now()), Audio(samples, marked))
    {
      var marker := marked || forceMarker || inNoise;
      forceMarker, inNoise := false, false;
      var h;
      if marker {
        h := builder.BuildWithMarker(samples, true);
      } else {
        h := builder.BuildNext(samples);
      }
      wire := [Wire(h.number, h.timestamp, h.marker, false)];
    }

    /** Comfort noise takes a number but no time. */
    method SendComfortNoise() returns (wire: seq<Wire>)
      modifies this, builder
      ensures (Now(), wire) == Step(old(Now()), Noise)
    {
      var first := !inNoise;
      var n := builder.NextSequence();
      wire := [Wire(n, builder.timestamp, first, false)];
      inNoise := true;
    }

    method SendDtmf(digit: char, durationMs: u32, intervalMs: u32) returns (wire: seq<Wire>)
      requires Sendable(Digit(digit, durationMs, intervalMs))
      modifies this, builder, digits
      ensures (Now(), wire) == Step(old(Now()), Digit(digit, durationMs, intervalMs))
    {
      var packets, next := digits.Generate(digit, durationMs, intervalMs, builder.number, builder.timestamp);
      if packets.None? {
        return [];
      }
      builder.SetSequence(next);
      wire := AllOnWire(packets.value);
    }
  }
}
