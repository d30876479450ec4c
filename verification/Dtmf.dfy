/** The digit sender and detector as the objects the source keeps, each method
    proved against the step functions. The shared sequence counter, which the
    source passes by mutable reference, goes in and comes out as a number. */
module Dtmf {
  import opened Words
  import opened DtmfPayload
  import opened DtmfSending
  import opened DtmfDetecting

  class DtmfSender {
    const payloadType: byte
    const ssrc: u32
    const neverMarker: bool
    var digitTimestamp: u32
    var outDigit: Option<Event>
    var sofar: u32
    var dur: u32

    ghost function Now(): Sender
      reads this
    {
      Sender(payloadType, ssrc, neverMarker, digitTimestamp, outDigit, sofar, dur)
    }

    constructor (ssrc: u32, payloadType: byte, neverMarker: bool)
      ensures Now() == Sender(payloadType, ssrc, neverMarker, 0, None, 0, 0)
    {
      this.ssrc, this.payloadType, this.neverMarker := ssrc, payloadType, neverMarker;
      digitTimestamp, outDigit, sofar, dur := 0, None, 0, 0;
    }

    method BuildPacket(p: Payload, marker: bool, number: u16) returns (packet: DtmfPacket, next: u16)
      requires p.event <= 15 && p.volume == DEFAULT_VOLUME
      ensures packet == Build(Now(), p.event, p.isEnd, p.duration, marker, number) && next == Low16(number + 1)
    {
      var actual := if neverMarker then false else marker;
      packet := DtmfPacket(payloadType, number, digitTimestamp, ssrc, actual, Serialize(p));
      next := Low16(number + 1);
    }

    method Start(digit: char, durationMs: u32, number: u16, audioTs: u32, intervalMs: u32)
      returns (packets: Option<seq<DtmfPacket>>, next: u16)
      modifies this
      ensures var r := StartDigit(old(Now()), digit, durationMs, number, audioTs, intervalMs);
        if r.None? then packets.None? && next == number && Now() == old(Now())
        else packets.Some? && Sent(Now(), next, packets.value) == r.value
    {
      var e := FromChar(digit);
      next := number;
      if e.None? {
        return None, next;
      }
      var sent := [];
      if outDigit.Some? {
        sent, next := End(next);
      }
      digitTimestamp, outDigit := audioTs, e;
      dur, sofar := Min(durationMs * 8, U32_MAX), 0;
      var initial := MsToTimestamp(Max(intervalMs, 1));
      var packet;
      packet, next := BuildPacket(Payload(e.value, false, DEFAULT_VOLUME, initial), true, next);
      sofar := initial;
      packets := Some(sent + [packet]);
    }

    method Continue(intervalMs: u32, number: u16) returns (packet: Option<DtmfPacket>, next: u16)
      modifies this
      ensures var r := ContinueDigit(old(Now()), intervalMs, number);
        Sent(Now(), next, if packet.Some? then [packet.value] else []) == r
    {
      next := number;
      if outDigit.None? || sofar >= dur {
        return None, next;
      }
      sofar := Low32(sofar + MsToTimestamp(intervalMs));
      if sofar >= dur {
        return None, next;
      }
      var p;
      p, next := BuildPacket(Payload(outDigit.value, false, DEFAULT_VOLUME, Min(sofar, U16_MAX)), false, number);
      packet := Some(p);
    }

    method End(number: u16) returns (packets: seq<DtmfPacket>, next: u16)
      modifies this
      ensures Sent(Now(), next, packets) == EndDigit(old(Now()), number)
    {
      packets, next := [], number;
      if outDigit.Some? {
        var p;
        p, next := BuildPacket(Payload(outDigit.value, true, DEFAULT_VOLUME, Min(sofar, U16_MAX)), false, number);
        outDigit := None;
        packets := [p];
        for i := 0 to 2
          invariant packets == if i == 0 then [p] else if i == 1 then [p, p] else [p, p, p]
        {
          packets := packets + [p];
        }
        digitTimestamp := Low32(digitTimestamp + dur);
      }
    }

    method Generate(digit: char, durationMs: u32, intervalMs: u32, number: u16, audioTs: u32)
      returns (packets: Option<seq<DtmfPacket>>, next: u16)
      requires intervalMs > 0
      modifies this
      ensures var r := GenerateDigit(old(Now()), digit, durationMs, intervalMs, number, audioTs);
        if r.None? then packets.None? && next == number && Now() == old(Now())
        else packets.Some? && Sent(Now(), next, packets.value) == r.value
    {
      packets, next := Start(digit, durationMs, number, audioTs, intervalMs);
      if packets.None? {
        return;
      }
      var made := packets.value;
      ghost var start := Sent(Now(), next, made);
      var n := Max(Low32(durationMs + intervalMs - 1) / intervalMs, 1);
      var i := 0;
      while i < n
        invariant 0 <= i <= n
        invariant ContinueTimes(Sent(Now(), next, made), intervalMs, n - i) == ContinueTimes(start, intervalMs, n)
      {
        var p;
        ghost var before := Sent(Now(), next, made);
        p, next := Continue(intervalMs, next);
        if p.Some? {
          made := made + [p.value];
        }
        ghost var step := ContinueDigit(before.sender, intervalMs, before.number);
        assert Sent(Now(), next, made) == step.(packets := before.packets + step.packets);
        i := i + 1;
      }
      var end;
      end, next := End(next);
      packets := Some(made + end);
    }
  }

  class DtmfDetector {
    const setup: Setup
    var prevNumber: u16
    var digitTs: u32
    var startedTs: u32
    var sanity: u32
    var lastDuration: u16
    var flip: u32
    var current: Option<Event>
    var lastEndTs: u32
    var firstTs: u32
    var startTime: Option<nat>
    var queue: seq<Detected>

    ghost function Now(): Detector
      reads this
    {
      Detector(prevNumber, digitTs, startedTs, sanity, lastDuration, flip, current, lastEndTs, firstTs, startTime,
          queue)
    }

    constructor (setup: Setup)
      ensures this.setup == setup && Now() == Fresh()
    {
      this.setup := setup;
      prevNumber, digitTs, startedTs, sanity, lastDuration, flip := 0, 0, 0, 0, 0, 0;
      current, lastEndTs, firstTs, startTime, queue := None, 0, 0, None, [];
    }

    method PopDigit() returns (digit: Option<Detected>)
      modifies `queue
      ensures if old(queue) == [] then digit.None? && queue == []
              else digit.Some? && old(queue) == [digit.value] + queue
    {
      if queue == [] {
        return None;
      }
      digit, queue := Some(queue[0]), queue[1..];
    }

    method Forget()
      modifies this
      ensures Now() == ResetState(old(Now()))
    {
      prevNumber, digitTs, startedTs, sanity, lastDuration, flip := 0, 0, 0, 0, 0, 0;
      current, lastEndTs, firstTs, startTime := None, 0, 0, None;
    }

    method Process(payloadType: byte, number: u16, ts: u32, payload: seq<byte>, now: nat)
      returns (out: Option<Detected>)
      modifies this
      ensures (Now(), out) == ProcessRtp(setup, old(Now()), payloadType, number, ts, payload, now)
    {
      if payloadType != setup.expectedPt {
        return None;
      }
      var parsed := Parse(payload);
      if parsed.None? {
        return None;
      }
      var p := parsed.value;
      if lastEndTs != 0 {
        if ts == lastEndTs {
          if !p.isEnd {
            return None;
          }
        } else if Sub32(ts, lastEndTs) < INTERDIGIT_GAP {
          return None;
        }
      }
      if prevNumber != 0 && ts == digitTs {
        var diff := Sub16(number, prevNumber);
        if diff == 0 || diff > 0x8000 {
          return None;
        }
      }
      assert !Suppressed(Now(), ts, p.isEnd) && !Overtaken(Now(), number, ts);
      var lastTs, seen := digitTs, sanity;
      digitTs, prevNumber := ts, number;
      if ts == lastTs {
        sanity := Low32(sanity + 1);
        if seen > SANITY_LIMIT {
          Forget();
          return None;
        }
      } else {
        sanity := 0;
      }
      assert Now() == Note(old(Now()), number, ts);
      out := AcceptPacket(p, ts, now);
    }

    method AcceptPacket(p: Payload, ts: u32, now: nat) returns (out: Option<Detected>)
      requires p.event <= 15
      modifies this
      ensures (Now(), out) == Accept(setup, old(Now()), p, ts, now)
    {
      CompleteIfTimedOut(ts, now);
      if ts != startedTs {
        StartOver(p.event, ts, now);
      } else if current.Some? && current.value != p.event {
        return None;
      }
      out := MeasurePacket(p, ts);
    }

    method CompleteIfTimedOut(ts: u32, now: nat)
      modifies this
      ensures Now() == CheckTimeout(setup, old(Now()), ts, now)
    {
      if current.Some? {
        var rtpTimeout := false;
        if firstTs != 0 {
          var elapsed := Sub32(ts, firstTs);
          rtpTimeout := elapsed > Min(setup.endTimeoutMs * 8, U32_MAX) && elapsed < 0x8000_0000;
        }
        var wallTimeout :=
          startTime.Some? && Low32(SaturatingSub(now, startTime.value)) > setup.endTimeoutMs;
        if rtpTimeout || wallTimeout {
          CompleteCurrent();
          flip, lastDuration := 0, 0;
        }
      }
    }

    method CompleteCurrent()
      requires current.Some?
      modifies `queue, `current, `lastEndTs, `firstTs, `startTime
      ensures Now() == ForceComplete(old(Now()))
    {
      var duration := Max((lastDuration + flip) / 8, MIN_DURATION_MS);
      queue := queue + [Detected(ToChar(current.value), current.value, duration, false)];
      current, lastEndTs, firstTs, startTime := None, startedTs, 0, None;
    }

    method StartOver(e: Event, ts: u32, now: nat)
      modifies this
      ensures Now() == BeginDigit(old(Now()), e, ts, now)
    {
      if current.Some? {
        CompleteCurrent();
      }
      current, startedTs, lastDuration, flip := Some(e), ts, 0, 0;
      firstTs, startTime := ts, Some(now);
    }

    method MeasurePacket(p: Payload, ts: u32) returns (out: Option<Detected>)
      modifies this
      ensures (Now(), out) == Measure(old(Now()), p, ts)
    {
      hide ToChar, Low32;
      if p.duration < lastDuration && lastDuration >= FLIP_THRESHOLD {
        flip := Low32(flip + 0xFFFF);
      }
      lastDuration := p.duration;
      var total := p.duration + flip;
      if total > MAX_DURATION {
        Forget();
        return None;
      }
      if !p.isEnd || current.None? {
        return None;
      }
      var digit := current.value;
      current, flip, firstTs, startTime := None, 0, 0, None;
      if total == 0 {
        return None;
      }
      var report := Detected(ToChar(digit), digit, Max(total / 8, MIN_DURATION_MS), true);
      lastEndTs, queue := ts, queue + [report];
      out := Some(report);
    }
  }
}
