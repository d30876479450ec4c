/** The RFC 4733 digit sender (src/rtp/dtmf.rs) in its RFC-conforming mode. */
module DtmfSending {
  import opened Words
  import opened DtmfPayload

  datatype DtmfPacket = DtmfPacket(
    payloadType: byte, number: u16, timestamp: u32, ssrc: u32, marker: bool, payload: seq<byte>)

  /** What a sender keeps between packets; `dur` and `sofar` are in timestamp units. */
  datatype Sender = Sender(
    payloadType: byte, ssrc: u32, neverMarker: bool,
    timestamp: u32, outDigit: Option<Event>, sofar: u32, dur: u32)

  function Build(s: Sender, e: Event, isEnd: bool, duration: u16, marker: bool, number: u16): DtmfPacket {
    DtmfPacket(s.payloadType, number, s.timestamp, s.ssrc, marker && !s.neverMarker,
               Serialize(Payload(e, isEnd, DEFAULT_VOLUME, duration)))
  }

  /** A sender, the shared sequence counter, and the packets made. */
  datatype Sent = Sent(sender: Sender, number: u16, packets: seq<DtmfPacket>)

  function StartDigit(s: Sender, digit: char, durationMs: u32, number: u16, audioTs: u32, intervalMs: u32)
    : Option<Sent>
  {
    var e := FromChar(digit);
    if e.None? then None
    else
      var prefix := EndDigit(s, number);
      var initial := MsToTimestamp(Max(intervalMs, 1));
      var s1 := prefix.sender.(timestamp := audioTs, outDigit := e, dur := Min(durationMs * 8, U32_MAX),
          sofar := initial);
      Some(Sent(s1, Low16(prefix.number + 1),
                prefix.packets + [Build(s1, e.value, false, initial, true, prefix.number)]))
  }

  function ContinueDigit(s: Sender, intervalMs: u32, number: u16): Sent {
    if s.outDigit.None? || s.sofar >= s.dur then Sent(s, number, [])
    else
      var s1 := s.(sofar := Low32(s.sofar + MsToTimestamp(intervalMs)));
      if s1.sofar >= s.dur then Sent(s1, number, [])
      else Sent(s1, Low16(number + 1),
                [Build(s1, s.outDigit.value, false, Min(s1.sofar, U16_MAX), false, number)])
  }

  /** The END packet goes out three times under one sequence number. */
  function EndDigit(s: Sender, number: u16): Sent {
    if s.outDigit.None? then Sent(s, number, [])
    else
      var p := Build(s, s.outDigit.value, true, Min(s.sofar, U16_MAX), false, number);
      Sent(s.(outDigit := None, timestamp := Low32(s.timestamp + s.dur)), Low16(number + 1), [p, p, p])
  }

  function ContinueTimes(sent: Sent, intervalMs: u32, n: nat): Sent
    decreases n
  {
    if n == 0 then sent
    else
      var next := ContinueDigit(sent.sender, intervalMs, sent.number);
      ContinueTimes(next.(packets := sent.packets + next.packets), intervalMs, n - 1)
  }

  function Intervals(durationMs: u32, intervalMs: u32): nat
    requires intervalMs > 0
  {
    Max(Low32(durationMs + intervalMs - 1) / intervalMs, 1)
  }

  function GenerateDigit(s: Sender, digit: char, durationMs: u32, intervalMs: u32, number: u16, audioTs: u32)
    : Option<Sent>
    requires intervalMs > 0
  {
    var start := StartDigit(s, digit, durationMs, number, audioTs, intervalMs);
    if start.None? then None
    else
      var body := ContinueTimes(start.value, intervalMs, Intervals(durationMs, intervalMs));
      var end := EndDigit(body.sender, body.number);
      Some(end.(packets := body.packets + end.packets))
  }

  // ---------- the schedule in closed form ----------

  /** The length of `n` intervals of `step` timestamp units: their product. */
  function Units(step: nat, n: nat): nat {
    if n == 0 then 0 else Units(step, n - 1) + step
  }

  lemma {:induction false} UnitsIsProduct(step: nat, n: nat)
    ensures Units(step, n) == step * n
  {
    if n == 0 {
    } else {
      UnitsIsProduct(step, n - 1);
      assert step * n == step * (n - 1) + step;
    }
  }

  /** The schedule a digit of `q` intervals must have: non-END packet `i`
      reports `i + 1` intervals, the END reports all of them. */
  function Update(s: Sender, e: Event, audioTs: u32, step: nat, number: int, i: nat): DtmfPacket {
    Build(s.(timestamp := audioTs), e, false, Min(Units(step, i + 1), U16_MAX), i == 0, Low16(number + i))
  }

  function Updates(s: Sender, e: Event, audioTs: u32, step: nat, number: int, n: nat): (ps: seq<DtmfPacket>)
    ensures |ps| == n
  {
    seq(n, i requires 0 <= i < n => Update(s, e, audioTs, step, number, i))
  }

  function UpdateCount(q: nat): nat {
    if q <= 2 then 1 else q - 1
  }

  /** `n` updates, then three copies of an END that reports `m` intervals. */
  function Plan(s: Sender, e: Event, audioTs: u32, step: nat, number: int, n: nat, m: nat): seq<DtmfPacket> {
    var end := Build(s.(timestamp := audioTs), e, true, Min(Units(step, m), U16_MAX), false, Low16(number + n));
    Updates(s, e, audioTs, step, number, n) + [end, end, end]
  }

  /** The schedule of section 2.5.1 of RFC 4733 for a digit of `q` intervals. */
  function Schedule(s: Sender, e: Event, audioTs: u32, step: nat, number: int, q: nat): seq<DtmfPacket> {
    Plan(s, e, audioTs, step, number, UpdateCount(q), q)
  }

  /** How far a digit has come after `k` continuations of at most `q` intervals. */
  function Reached(k: nat, q: nat): nat {
    if k + 1 < q then k + 1 else q
  }

  function SentSoFar(k: nat, q: nat): nat {
    if k + 1 < q then k + 1 else UpdateCount(q)
  }

  /** The state of the generator after `k` of its continuations. */
  ghost predicate Progress(
    sent: Sent, s: Sender, e: Event, audioTs: u32, step: nat, number: u16, dur: u32, q: nat, k: nat)
  {
    && sent.sender == s.(timestamp := audioTs, outDigit := Some(e), dur := dur, sofar := sent.sender.sofar)
    && sent.sender.sofar == Units(step, Reached(k, q))
    && sent.number == Low16(number + SentSoFar(k, q))
    && sent.packets == Updates(s, e, audioTs, step, number, SentSoFar(k, q))
  }

  /** `q` intervals of `step` units just cover `dur` units. */
  ghost predicate Covers(step: nat, q: nat, dur: u32) {
    q >= 1 && dur <= Units(step, q) <= U32_MAX && forall r: nat :: 0 < r < q ==> Units(step, r) < dur
  }

  /** One continuation: it adds one interval until the digit is complete, and
      sends an update until the next interval would complete it. */
  lemma {:induction false} ContinueOnce(s: Sender, ms: u32, number: u16, after: nat)
    requires s.outDigit.Some? && after == s.sofar + MsToTimestamp(ms) <= U32_MAX
    ensures var r := ContinueDigit(s, ms, number);
      r == if s.sofar >= s.dur then Sent(s, number, [])
           else if after >= s.dur then Sent(s.(sofar := after), number, [])
           else Sent(s.(sofar := after), Low16(number + 1),
                     [Build(s, s.outDigit.value, false, Min(after, U16_MAX), false, number)])
  {
  }

  lemma {:induction false} ContinueDone(s: Sender, ms: u32, number: u16)
    requires s.sofar >= s.dur
    ensures ContinueDigit(s, ms, number) == Sent(s, number, [])
  {
  }

  lemma {:induction false} AppendUpdate(s: Sender, e: Event, audioTs: u32, step: nat, number: int, n: nat)
    ensures Updates(s, e, audioTs, step, number, n) + [Update(s, e, audioTs, step, number, n)]
         == Updates(s, e, audioTs, step, number, n + 1)
  {
  }

  /** One more interval before the digit is complete. */
  lemma {:induction false} StepProgress(
    sent: Sent, s: Sender, e: Event, audioTs: u32, ms: u32, number: u16, dur: u32, m: nat, k: nat)
    requires Covers(MsToTimestamp(ms), m, dur) && k + 1 < m
    requires Progress(sent, s, e, audioTs, MsToTimestamp(ms), number, dur, m, k)
    ensures var next := ContinueDigit(sent.sender, ms, sent.number);
      Progress(next.(packets := sent.packets + next.packets), s, e, audioTs, MsToTimestamp(ms), number, dur, m, k + 1)
  {
    hide ContinueDigit, MsToTimestamp, Updates;
    var step, after := MsToTimestamp(ms), Units(MsToTimestamp(ms), k + 2);
    assert after == Units(step, k + 1) + step;
    UnitsGrow(step, k + 2, m);
    assert Units(step, k + 1) < dur && (k + 2 < m ==> after < dur);
    ContinueOnce(sent.sender, ms, sent.number, after);
    if k + 2 < m {
      NextNumber(number, k + 1);
      AppendUpdate(s, e, audioTs, step, number, k + 1);
      assert sent.sender.(sofar := after).payloadType == s.payloadType;
      assert Build(sent.sender.(sofar := after), e, false, Min(after, U16_MAX), false, Low16(number + (k + 1)))
          == Update(s, e, audioTs, step, number, k + 1);
    }
  }

  lemma {:induction false} NextNumber(number: u16, n: nat)
    ensures Low16(Low16(number + n) + 1) == Low16(number + n + 1)
  {
  }

  lemma {:induction false} ContinueProgress(
    sent: Sent, s: Sender, e: Event, audioTs: u32, ms: u32, number: u16, dur: u32, m: nat, k: nat)
    requires Covers(MsToTimestamp(ms), m, dur)
    requires Progress(sent, s, e, audioTs, MsToTimestamp(ms), number, dur, m, k)
    ensures var next := ContinueDigit(sent.sender, ms, sent.number);
      Progress(next.(packets := sent.packets + next.packets), s, e, audioTs, MsToTimestamp(ms), number, dur, m, k + 1)
  {
    hide ContinueDigit, MsToTimestamp, Updates, Low16;
    if k + 1 < m {
      StepProgress(sent, s, e, audioTs, ms, number, dur, m, k);
    } else {
      ContinueDone(sent.sender, ms, sent.number);
      assert sent.packets + [] == sent.packets;
    }
  }

  lemma {:induction false} ContinueTimesProgress(
    sent: Sent, s: Sender, e: Event, audioTs: u32, ms: u32, number: u16, dur: u32, m: nat, k: nat, n: nat)
    requires Covers(MsToTimestamp(ms), m, dur)
    requires Progress(sent, s, e, audioTs, MsToTimestamp(ms), number, dur, m, k)
    ensures Progress(ContinueTimes(sent, ms, n), s, e, audioTs, MsToTimestamp(ms), number, dur, m, k + n)
    decreases n
  {
    if n == 0 {
    } else {
      ContinueProgress(sent, s, e, audioTs, ms, number, dur, m, k);
      var next := ContinueDigit(sent.sender, ms, sent.number);
      ContinueTimesProgress(next.(packets := sent.packets + next.packets), s, e, audioTs, ms, number, dur, m, k + 1,
          n - 1);
    }
  }

  /** `a / b` rounded up, and at least one. */
  function Quotient(a: nat, b: nat): nat
    requires b > 0
  {
    Max((a + b - 1) / b, 1)
  }

  lemma {:induction false} UnitsGrow(step: nat, m: nat, n: nat)
    requires m <= n
    ensures Units(step, m) <= Units(step, n)
    decreases n
  {
    if m == n {
    } else {
      UnitsGrow(step, m, n - 1);
    }
  }

  lemma {:induction false} QuotientBounds(a: nat, b: nat)
    requires b > 0
    ensures var q := Quotient(a, b);
      a <= Units(b, q) && (q > 1 ==> Units(b, q - 1) < a) && Units(b, q) < a + b + b
  {
    var n := a + b - 1;
    assert n == b * (n / b) + n % b;
    UnitsIsProduct(b, n / b);
    UnitsIsProduct(b, 1);
  }

  lemma {:induction false} QuotientCovers(a: u32, b: nat)
    requires b > 0 && a + b + b <= U32_MAX
    ensures Covers(b, Quotient(a, b), a)
  {
    var q := Quotient(a, b);
    QuotientBounds(a, b);
    forall r: nat | 0 < r < q
      ensures Units(b, r) < a
    {
      UnitsGrow(b, r, q - 1);
    }
  }

  lemma {:induction false} UnitsScale(f: nat, step: nat, n: nat)
    ensures Units(f * step, n) == f * Units(step, n)
  {
    if n == 0 {
    } else {
      UnitsScale(f, step, n - 1);
    }
  }

  /** Rounding up is decided by the multiples around the dividend. */
  lemma {:induction false} QuotientIs(a: nat, b: nat, q: nat)
    requires b > 0 && q >= 1 && a <= Units(b, q) && (q > 1 ==> Units(b, q - 1) < a)
    ensures Quotient(a, b) == q
  {
    var p := Quotient(a, b);
    QuotientBounds(a, b);
    if p < q {
      UnitsGrow(b, p, q - 1);
    } else if p > q {
      UnitsGrow(b, q, p - 1);
    }
  }

  lemma {:induction false} QuotientScales(a: nat, b: nat)
    requires b > 0
    ensures Quotient(8 * a, 8 * b) == Quotient(a, b)
  {
    var q := Quotient(a, b);
    QuotientBounds(a, b);
    UnitsScale(8, b, q);
    UnitsScale(8, b, q - 1);
    QuotientIs(8 * a, 8 * b, q);
  }

  lemma {:induction false} IntervalsIsQuotient(durationMs: u32, intervalMs: u32)
    requires intervalMs > 0 && durationMs + intervalMs <= U32_MAX
    ensures Intervals(durationMs, intervalMs) == Quotient(durationMs, intervalMs)
  {
  }

  /** What an idle sender makes of any digit that fits the 32-bit counters: the
      loop makes `q` continuations, of which each adds one step of at most
      16 bits, and `m` steps complete the digit. */
  lemma {:induction false} GeneratedPlan(
    s: Sender, digit: char, durationMs: u32, intervalMs: u32, number: u16, audioTs: u32)
    requires s.outDigit.None? && FromChar(digit).Some?
    requires intervalMs > 0 && durationMs + intervalMs <= U32_MAX && 8 * durationMs + 2 * U16_MAX <= U32_MAX
    ensures var q, m := Quotient(durationMs, intervalMs), Quotient(8 * durationMs, MsToTimestamp(intervalMs));
      var r := GenerateDigit(s, digit, durationMs, intervalMs, number, audioTs);
      && r.Some? && r.value.sender.outDigit.None?
      && r.value.packets == Plan(s, FromChar(digit).value, audioTs, MsToTimestamp(intervalMs), number,
                                 SentSoFar(q, m), Reached(q, m))
      && r.value.number == Low16(number + SentSoFar(q, m) + 1)
  {
    var e, step := FromChar(digit).value, MsToTimestamp(intervalMs);
    var q, m := Quotient(durationMs, intervalMs), Quotient(8 * durationMs, step);
    var dur: u32 := 8 * durationMs;
    QuotientCovers(dur, step);
    IntervalsIsQuotient(durationMs, intervalMs);
    var start := StartDigit(s, digit, durationMs, number, audioTs, intervalMs).value;
    StartProgress(s, digit, durationMs, intervalMs, number, audioTs, m);
    ContinueTimesProgress(start, s, e, audioTs, intervalMs, number, dur, m, 0, q);
    EndPlan(ContinueTimes(start, intervalMs, q), s, e, audioTs, step, number, dur, m, q);
  }

  lemma {:induction false} StartProgress(
    s: Sender, digit: char, durationMs: u32, intervalMs: u32, number: u16, audioTs: u32, m: nat)
    requires s.outDigit.None? && FromChar(digit).Some? && m >= 1
    requires intervalMs > 0 && 8 * durationMs <= U32_MAX
    ensures var start := StartDigit(s, digit, durationMs, number, audioTs, intervalMs);
      && start.Some?
      && Progress(start.value, s, FromChar(digit).value, audioTs, MsToTimestamp(intervalMs), number, 8 * durationMs,
          m, 0)
  {
    var e, step := FromChar(digit).value, MsToTimestamp(intervalMs);
    var start := StartDigit(s, digit, durationMs, number, audioTs, intervalMs).value;
    assert Reached(0, m) == 1 && SentSoFar(0, m) == 1;
    assert Units(step, 1) == step;
    assert start.packets == [Update(s, e, audioTs, step, number, 0)];
  }

  lemma {:induction false} EndPlan(
    body: Sent, s: Sender, e: Event, audioTs: u32, step: nat, number: u16, dur: u32, m: nat, k: nat)
    requires m >= 1 && Progress(body, s, e, audioTs, step, number, dur, m, k)
    ensures var end := EndDigit(body.sender, body.number);
      && end.sender.outDigit.None?
      && body.packets + end.packets == Plan(s, e, audioTs, step, number, SentSoFar(k, m), Reached(k, m))
      && end.number == Low16(number + SentSoFar(k, m) + 1)
  {
  }

  /** For intervals below 8.192 seconds the schedule is the one of section 2.5.1
      of RFC 4733: with q the number of intervals, max(1, q - 1) updates with
      durations of 1, 2, ... intervals and consecutive numbers, then three
      copies of one END of q intervals; and the shared counter moves on by one
      more than the number of updates. */
  lemma {:induction false} ScheduleClosedForm(
    s: Sender, digit: char, durationMs: u32, intervalMs: u32, number: u16, audioTs: u32)
    requires s.outDigit.None? && FromChar(digit).Some?
    requires 1 <= intervalMs <= 8191 && 8 * durationMs + 2 * U16_MAX <= U32_MAX
    ensures var q := Quotient(durationMs, intervalMs);
      var r := GenerateDigit(s, digit, durationMs, intervalMs, number, audioTs);
      && r.Some? && r.value.sender.outDigit.None?
      && r.value.packets == Schedule(s, FromChar(digit).value, audioTs, 8 * intervalMs, number, q)
      && r.value.number == Low16(number + UpdateCount(q) + 1)
  {
    GeneratedPlan(s, digit, durationMs, intervalMs, number, audioTs);
    QuotientScales(durationMs, intervalMs);
  }

  /** What each packet of a schedule says: the sender's payload type and SSRC, the one
      timestamp, the marker on the very first unless the sender never sets it, and in
      the payload the digit, the END mark, volume 10 and the units so far. */
  lemma {:induction false} ScheduleShows(
    s: Sender, e: Event, audioTs: u32, step: nat, number: u16, q: nat, i: nat)
    requires i < UpdateCount(q) + 3
    ensures var n, p := UpdateCount(q), Schedule(s, e, audioTs, step, number, q)[i];
      && |Schedule(s, e, audioTs, step, number, q)| == n + 3
      && p.payloadType == s.payloadType && p.ssrc == s.ssrc && p.timestamp == audioTs
      && (p.marker <==> i == 0 && !s.neverMarker) && p.number == Low16(number + Min(i, n))
      && Parse(p.payload) == Some(Payload(e, i >= n, 10, Min(step * (if i < n then i + 1 else q), 65535)))
  {
    hide Parse, Serialize;
    var n := UpdateCount(q);
    var units := if i < n then i + 1 else q;
    UnitsIsProduct(step, units);
    PayloadRoundTrip(Payload(e, i >= n, 10, Min(step * units, 65535)));
  }

  /** A digit that begins while another goes on ends that one first: three ENDs with
      what it has lasted, under one number and the old timestamp, then the first update
      of the new one, with the marker and one interval. */
  lemma {:induction false} InterruptedDigit(
    s: Sender, digit: char, durationMs: u32, number: u16, audioTs: u32, intervalMs: u32)
    requires s.outDigit.Some? && FromChar(digit).Some? && 1 <= intervalMs <= 8191 && 8 * durationMs <= U32_MAX
    ensures var r := StartDigit(s, digit, durationMs, number, audioTs, intervalMs);
      && r.Some? && |r.value.packets| == 4 && r.value.number == Low16(number + 2)
      && (forall i :: 0 <= i < 3 ==> var p := r.value.packets[i];
            && p.number == number && p.timestamp == s.timestamp && p.ssrc == s.ssrc && p.payloadType == s.payloadType
            && !p.marker
            && Parse(p.payload) == Some(Payload(s.outDigit.value, true, 10, Min(s.sofar, 65535))))
      && (var p := r.value.packets[3];
            && p.number == Low16(number + 1) && p.timestamp == audioTs && p.ssrc == s.ssrc
            && p.payloadType == s.payloadType && (p.marker <==> !s.neverMarker)
            && Parse(p.payload) == Some(Payload(FromChar(digit).value, false, 10, 8 * intervalMs)))
      && r.value.sender == s.(timestamp := audioTs, outDigit := FromChar(digit), dur := 8 * durationMs,
                              sofar := 8 * intervalMs)
  {
    hide Parse, Serialize, FromChar;
    PayloadRoundTrip(Payload(s.outDigit.value, true, 10, Min(s.sofar, 65535)));
    PayloadRoundTrip(Payload(FromChar(digit).value, false, 10, 8 * intervalMs));
  }

  /** An END frees the sender, and moves its timestamp on by the whole digit. */
  lemma {:induction false} EndFreesSender(s: Sender, number: u16)
    requires s.outDigit.Some? && s.timestamp + s.dur <= U32_MAX
    ensures EndDigit(s, number).sender == s.(outDigit := None, timestamp := s.timestamp + s.dur)
  {
  }

  lemma {:induction false} UnitsWiden(step: nat, wide: nat, n: nat)
    requires step <= wide
    ensures Units(step, n) <= Units(wide, n)
  {
    if n == 0 {
    } else {
      UnitsWiden(step, wide, n - 1);
    }
  }

  /** Wider steps need no more of them. */
  lemma {:induction false} WiderIsFewer(a: nat, b: nat, wide: nat)
    requires 0 < b <= wide
    ensures Quotient(a, wide) <= Quotient(a, b)
  {
    var q, m := Quotient(a, wide), Quotient(a, b);
    QuotientBounds(a, wide);
    QuotientBounds(a, b);
    UnitsWiden(b, wide, m);
    if m < q {
      UnitsGrow(wide, m, q - 1);
    }
  }

  /** When a generator of `q` rounds that completes the digit after `m` steps sends
      the updates of `q` intervals. */
  lemma {:induction false} UpdatesMatchIff(q: nat, m: nat)
    requires 1 <= q <= m
    ensures SentSoFar(q, m) == UpdateCount(q) <==> m == q || (q == 1 && m == 2)
  {
  }

  /** A longer interval does not fit the 16-bit step. The schedule is then right if
      and only if the digit, measured in steps of 65535 units, comes to as many
      steps as it has intervals, or to two for a digit of one interval. */
  lemma {:induction false} LongIntervalSchedule(
    s: Sender, digit: char, durationMs: u32, intervalMs: u32, number: u16, audioTs: u32)
    requires s.outDigit.None? && FromChar(digit).Some?
    requires 8191 < intervalMs && durationMs + intervalMs <= U32_MAX && 8 * durationMs + 2 * U16_MAX <= U32_MAX
    ensures var q, m := Quotient(durationMs, intervalMs), Quotient(8 * durationMs, U16_MAX);
      var r := GenerateDigit(s, digit, durationMs, intervalMs, number, audioTs);
      r.Some? &&
      (r.value.packets == Schedule(s, FromChar(digit).value, audioTs, 8 * intervalMs, number, q)
       <==> m == q || (q == 1 && m == 2))
  {
    hide GenerateDigit, Quotient;
    GeneratedPlan(s, digit, durationMs, intervalMs, number, audioTs);
    var q, m := Quotient(durationMs, intervalMs), Quotient(8 * durationMs, U16_MAX);
    var e := FromChar(digit).value;
    QuotientScales(durationMs, intervalMs);
    WiderIsFewer(8 * durationMs, U16_MAX, 8 * intervalMs);
    QuotientAtLeastOne(durationMs, intervalMs);
    UpdatesMatchIff(q, m);
    PlansAgreeIff(s, e, audioTs, 8 * intervalMs, number, q, m);
  }

  lemma {:induction false} QuotientAtLeastOne(a: nat, b: nat)
    requires b > 0
    ensures Quotient(a, b) >= 1
  {
  }

  /** Both plans are clipped alike, so only the number of updates can differ. */
  lemma {:induction false} PlansAgreeIff(s: Sender, e: Event, audioTs: u32, step: nat, number: u16, q: nat, m: nat)
    requires step >= U16_MAX && 1 <= q <= m
    ensures Plan(s, e, audioTs, U16_MAX, number, SentSoFar(q, m), Reached(q, m))
         == Schedule(s, e, audioTs, step, number, q)
       <==> SentSoFar(q, m) == UpdateCount(q)
  {
    if SentSoFar(q, m) == UpdateCount(q) {
      LongStepsClip(s, e, audioTs, step, number, UpdateCount(q));
      UnitsGrow(step, 1, q);
      UnitsGrow(U16_MAX, 1, Reached(q, m));
    } else {
      assert |Plan(s, e, audioTs, U16_MAX, number, SentSoFar(q, m), Reached(q, m))| == SentSoFar(q, m) + 3;
      assert |Schedule(s, e, audioTs, step, number, q)| == UpdateCount(q) + 3;
    }
  }

  lemma {:induction false} LongStepsClip(s: Sender, e: Event, audioTs: u32, step: nat, number: int, n: nat)
    requires step >= U16_MAX
    ensures Updates(s, e, audioTs, step, number, n) == Updates(s, e, audioTs, U16_MAX, number, n)
  {
    forall i | 0 <= i < n
      ensures Update(s, e, audioTs, step, number, i) == Update(s, e, audioTs, U16_MAX, number, i)
    {
      UnitsGrow(step, 1, i + 1);
      UnitsGrow(U16_MAX, 1, i + 1);
    }
  }

  /** It can be wrong: two intervals of 16.384 seconds make three updates. */
  lemma {:induction false} LongIntervalExample(s: Sender, number: u16, audioTs: u32)
    requires s.outDigit.None?
    ensures var r := GenerateDigit(s, '5', 32768, 16384, number, audioTs);
      r.Some? && |r.value.packets| == 6 && UpdateCount(Quotient(32768, 16384)) == 1
  {
    GeneratedPlan(s, '5', 32768, 16384, number, audioTs);
    assert Quotient(32768, 16384) == 2 && Quotient(262144, U16_MAX) == 5;
  }
}
