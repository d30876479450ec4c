/** The RFC 4733 digit detector (src/rtp/dtmf.rs), for one negotiated payload
    type: what each received packet does to the detector's state. */
module DtmfDetecting {
  import opened Words
  import opened DtmfPayload
  import opened DtmfSending

  const SANITY_LIMIT := 1500
  const MAX_DURATION := 30 * 8000
  const MIN_DURATION_MS := 50
  const INTERDIGIT_GAP := 640
  const FLIP_THRESHOLD := 0xFC17

  datatype Setup = Setup(expectedPt: byte, endTimeoutMs: u32)

  datatype Detected = Detected(digit: char, event: Event, durationMs: nat, isEnd: bool)

  /** `digitTs` is the timestamp of the last packet let through, `startedTs` that
      of the last digit started. Zero stands for "none" in `prevNumber`,
      `lastEndTs` and `firstTs`. */
  datatype Detector = Detector(
    prevNumber: u16, digitTs: u32, startedTs: u32, sanity: u32,
    lastDuration: u16, flip: u32, current: Option<Event>,
    lastEndTs: u32, firstTs: u32, startTime: Option<nat>,
    queue: seq<Detected>)

  function Fresh(): Detector {
    Detector(0, 0, 0, 0, 0, 0, None, 0, 0, None, [])
  }

  /** `reset_state` forgets everything but the digits already detected. */
  function ResetState(d: Detector): Detector {
    Fresh().(queue := d.queue)
  }

  /** Interdigit overlap protection: what follows an END too closely, and is not
      one more copy of that END, is dropped. */
  predicate Suppressed(d: Detector, ts: u32, isEnd: bool) {
    d.lastEndTs != 0 &&
    if ts == d.lastEndTs then !isEnd else Sub32(ts, d.lastEndTs) < INTERDIGIT_GAP
  }

  /** A duplicate, or a packet overtaken within its digit. */
  predicate Overtaken(d: Detector, number: u16, ts: u32) {
    d.prevNumber != 0 && ts == d.digitTs &&
    (Sub16(number, d.prevNumber) == 0 || Sub16(number, d.prevNumber) > 0x8000)
  }

  function Note(d: Detector, number: u16, ts: u32): Detector {
    d.(prevNumber := number, digitTs := ts, sanity := if ts == d.digitTs then Low32(d.sanity + 1) else 0)
  }

  predicate TimedOut(c: Setup, d: Detector, ts: u32, now: nat) {
    || (d.firstTs != 0 && Min(c.endTimeoutMs * 8, U32_MAX) < Sub32(ts, d.firstTs) < 0x8000_0000)
    || (d.startTime.Some? && Low32(SaturatingSub(now, d.startTime.value)) > c.endTimeoutMs)
  }

  function Report(d: Detector, total: nat, isEnd: bool): Detected
    requires d.current.Some?
  {
    Detected(ToChar(d.current.value), d.current.value, Max(total / 8, MIN_DURATION_MS), isEnd)
  }

  /** The digit in progress is complete, with what it has accumulated. */
  function ForceComplete(d: Detector): Detector
    requires d.current.Some?
  {
    d.(queue := d.queue + [Report(d, d.lastDuration + d.flip, false)], current := None,
       lastEndTs := d.startedTs, firstTs := 0, startTime := None)
  }

  function CheckTimeout(c: Setup, d: Detector, ts: u32, now: nat): Detector {
    if d.current.Some? && TimedOut(c, d, ts, now)
    then ForceComplete(d).(flip := 0, lastDuration := 0) else d
  }

  function BeginDigit(d: Detector, e: Event, ts: u32, now: nat): Detector {
    (if d.current.Some? then ForceComplete(d) else d)
      .(current := Some(e), startedTs := ts, lastDuration := 0, flip := 0, firstTs := ts, startTime := Some(now))
  }

  /** The duration, with its 16-bit wrap-around, and the report at the END. */
  function Measure(d: Detector, p: Payload, ts: u32): (Detector, Option<Detected>) {
    var flip := if p.duration < d.lastDuration && d.lastDuration >= FLIP_THRESHOLD
                then Low32(d.flip + 0xFFFF) else d.flip;
    var total := p.duration + flip;
    var d1 := d.(lastDuration := p.duration, flip := flip);
    if total > MAX_DURATION then (ResetState(d), None)
    else if !p.isEnd || d.current.None? then (d1, None)
    else
      var d2 := d1.(current := None, flip := 0, firstTs := 0, startTime := None);
      if total == 0 then (d2, None)
      else (d2.(lastEndTs := ts, queue := d.queue + [Report(d, total, true)]), Some(Report(d, total, true)))
  }

  function Accept(c: Setup, d: Detector, p: Payload, ts: u32, now: nat): (Detector, Option<Detected>)
    requires p.event <= 15
  {
    var d1 := CheckTimeout(c, d, ts, now);
    if ts != d1.startedTs then Measure(BeginDigit(d1, p.event, ts, now), p, ts)
    else if d1.current.Some? && d1.current.value != p.event then (d1, None)
    else Measure(d1, p, ts)
  }

  function ProcessPayload(c: Setup, d: Detector, p: Payload, number: u16, ts: u32, now: nat)
    : (Detector, Option<Detected>)
    requires p.event <= 15
  {
    if Suppressed(d, ts, p.isEnd) || Overtaken(d, number, ts) then (d, None)
    else if ts == d.digitTs && d.sanity > SANITY_LIMIT then (ResetState(d), None)
    else Accept(c, Note(d, number, ts), p, ts, now)
  }

  function ProcessRtp(c: Setup, d: Detector, payloadType: byte, number: u16, ts: u32, payload: seq<byte>, now: nat)
    : (Detector, Option<Detected>)
  {
    if payloadType != c.expectedPt || Parse(payload).None? then (d, None)
    else ProcessPayload(c, d, Parse(payload).value, number, ts, now)
  }

  /** Every digit let through starts a digit with its timestamp, or has it. */
  lemma {:induction false} TimestampsAgree(
    c: Setup, d: Detector, payloadType: byte, number: u16, ts: u32, payload: seq<byte>, now: nat)
    requires d.digitTs == d.startedTs
    ensures var d1 := ProcessRtp(c, d, payloadType, number, ts, payload, now).0; d1.digitTs == d1.startedTs
  {
  }
}
