/** Several digits one after the other, heard over the lossy channel: sent or
    not, with an END that arrives or without. */
module DtmfConversation {
  import opened Words
  import opened DtmfPayload
  import opened DtmfSending
  import opened DtmfDetecting
  import opened DtmfChannel

  // ---------- two digits ----------

  /** Two digits one after the other: the second is reported exactly when its
      timestamp differs from the first's and keeps the interdigit gap. */
  lemma {:induction false} SecondDigitHeardIff(
    c: Setup, d: Detector, k1: Digit, k2: Digit, first: seq<Arrival>, second: seq<Arrival>, j1: nat, j2: nat)
    requires OneDigit(c, k1, first) && OneDigit(c, k2, second) && Prompt(c, first, j1) && Prompt(c, second, j2)
    requires Idle(d) && Audible(d, k1.timestamp) && Short(k2) && |first| + |second| <= SANITY_LIMIT + 2
    ensures HearAll(c, HearAll(c, d, first), second).queue == d.queue + [DigitReport(k1)] +
      if KeepsGap(k1.timestamp, k2.timestamp) then [DigitReport(k2)] else []
  {
    hide OneDigit, Prompt, HearAll;
    DigitHeard(c, d, k1, first, j1);
    HeardIffAudible(c, HearAll(c, d, first), k2, second, j2);
  }

  /** A digit at `next` is heard after one at `ts`. */
  predicate KeepsGap(ts: u32, next: u32) {
    next != ts && Clear(ts, next)
  }

  lemma {:induction false} GapIsDistance(ts: u32, gap: nat)
    ensures Sub32(Low32(ts + gap), ts) == Low32(gap) && (Low32(ts + gap) == ts <==> Low32(gap) == 0)
  {
  }

  /** Two digits sent one after the other, with `gap` samples of audio between.
      Digits take no time of their own, so the second is lost when no audio
      separates them; when the first lay at time zero any audio is enough for it
      to be heard, otherwise it takes 640 samples. */
  lemma {:induction false} SecondSentDigitHeardIff(
    s: Sender, digit: char, durationMs: u32, next: char, nextMs: u32, intervalMs: u32, number: u16, nextNumber: u16,
    ts: u32, gap: nat, c: Setup, d: Detector, first: seq<Arrival>, second: seq<Arrival>, j1: nat, j2: nat)
    requires s.outDigit.None? && 1 <= intervalMs && c.expectedPt == s.payloadType
    requires Sendable(durationMs, intervalMs, number)
    requires Units(8 * intervalMs, Quotient(nextMs, intervalMs)) < FLIP_THRESHOLD
    requires Carries(s, digit, durationMs, intervalMs, number, ts, first) && Prompt(c, first, j1)
    requires Carries(s, next, nextMs, intervalMs, nextNumber, Low32(ts + gap), second) && Prompt(c, second, j2)
    requires Idle(d) && Audible(d, ts) && |first| + |second| <= SANITY_LIMIT + 2
    ensures FromChar(digit).Some? && FromChar(next).Some?
    ensures HearAll(c, HearAll(c, d, first), second).queue
         == d.queue + [SentReport(FromChar(digit).value, durationMs, intervalMs)]
            + if Low32(gap) != 0 && (ts == 0 || Low32(gap) >= INTERDIGIT_GAP)
              then [SentReport(FromChar(next).value, nextMs, intervalMs)] else []
  {
    hide OneDigit, Prompt, HearAll, Carries, DigitReport, SentReport, Audible;
    OnlyDigitsAreSent(s, digit, durationMs, intervalMs, number, ts, first);
    OnlyDigitsAreSent(s, next, nextMs, intervalMs, nextNumber, Low32(ts + gap), second);
    SentDigitBelongs(s, digit, durationMs, intervalMs, number, ts, first, c);
    SentDigitBelongs(s, next, nextMs, intervalMs, nextNumber, Low32(ts + gap), second, c);
    ReportOfSent(s, digit, durationMs, intervalMs, number, ts);
    ReportOfSent(s, next, nextMs, intervalMs, nextNumber, Low32(ts + gap));
    GapIsDistance(ts, gap);
    SecondDigitHeardIff(c, d, DigitOf(s, digit, durationMs, intervalMs, number, ts),
        DigitOf(s, next, nextMs, intervalMs, nextNumber, Low32(ts + gap)), first, second, j1, j2);
  }

  // ---------- any number of digits ----------

  /** What arrives of one digit: arrival `j` is an END, or there is none. */
  datatype Spoken = Spoken(digit: Digit, arrivals: seq<Arrival>, j: nat)

  predicate Ended(h: Spoken) {
    h.j < |h.arrivals|
  }

  function HearSpoken(c: Setup, d: Detector, spoken: seq<Spoken>): Detector {
    if spoken == [] then d
    else HearAll(c, HearSpoken(c, d, spoken[..|spoken| - 1]), spoken[|spoken| - 1].arrivals)
  }

  /** With the duration of the END, or else with that of the last update that was
      not overtaken. */
  function ToldAs(h: Spoken): Detected {
    if Ended(h) then DigitReport(h.digit) else UnendedReport(h.digit, Place(h.digit, Foremost(h.arrivals)))
  }

  function Reports(spoken: seq<Spoken>): seq<Detected> {
    if spoken == [] then [] else Reports(spoken[..|spoken| - 1]) + [ToldAs(spoken[|spoken| - 1])]
  }

  ghost predicate Arrives(c: Setup, h: Spoken) {
    && OneDigit(c, h.digit, h.arrivals) && |h.arrivals| <= SANITY_LIMIT + 2
    && if Ended(h) then Prompt(c, h.arrivals, h.j) else Unended(c, h.arrivals)
  }

  /** The timestamp that the detector holds for the last END when digit `i` begins,
      if the digit before has ended. */
  function EndBefore(d: Detector, spoken: seq<Spoken>, i: nat): u32
    requires i <= |spoken|
  {
    if i == 0 then d.lastEndTs else spoken[i - 1].digit.timestamp
  }

  /** Digit `i` keeps the gap to the one before and, when that has no END, to the one
      before that. */
  predicate Spaced(d: Detector, spoken: seq<Spoken>, i: nat)
    requires i < |spoken|
  {
    var ts := spoken[i].digit.timestamp;
    && (if i == 0 then Audible(d, ts) else KeepsGap(spoken[i - 1].digit.timestamp, ts))
    && (!Ended(spoken[i]) ==> Clear(EndBefore(d, spoken, i), ts))
    && (i > 0 && !Ended(spoken[i - 1]) ==> Clear(EndBefore(d, spoken, i - 1), ts))
  }

  ghost predicate Conversation(c: Setup, d: Detector, spoken: seq<Spoken>) {
    forall i :: 0 <= i < |spoken| ==> Arrives(c, spoken[i]) && Spaced(d, spoken, i)
  }

  /** The detector holds the digit last heard, which has no END. */
  predicate Holding(t: Detector, queue: seq<Detected>, lastEndTs: u32) {
    t.current.Some? && t.digitTs == t.startedTs && t.queue == queue && t.lastEndTs == lastEndTs
  }

  lemma {:induction false} SpokenHeard(c: Setup, u: Detector, h: Spoken)
    requires Idle(u) && Arrives(c, h) && Audible(u, h.digit.timestamp)
    requires !Ended(h) ==> Clear(u.lastEndTs, h.digit.timestamp)
    ensures var v := HearAll(c, u, h.arrivals);
      && Idle(Settled(v)) && Settled(v).queue == u.queue + [ToldAs(h)]
      && Settled(v).startedTs == Settled(v).lastEndTs == h.digit.timestamp
      && if Ended(h) then v.current.None? else Holding(v, u.queue, u.lastEndTs)
  {
    hide HearAll, OneDigit, Prompt, Unended, Place, Audible, Clear;
    if Ended(h) {
      DigitHeard(c, u, h.digit, h.arrivals, h.j);
    } else {
      UnendedHeard(c, u, h.digit, h.arrivals);
    }
  }

  /** After a conversation: all but a last digit without END have been reported, and
      that one is about to be. */
  ghost predicate HeardSoFar(t: Detector, d: Detector, spoken: seq<Spoken>) {
    && Idle(Settled(t)) && Settled(t).queue == d.queue + Reports(spoken)
    && (spoken == [] ==> t == d)
    && (spoken != [] ==>
          var n := |spoken| - 1;
          && Settled(t).startedTs == Settled(t).lastEndTs == spoken[n].digit.timestamp
          && if Ended(spoken[n]) then t.current.None?
             else Holding(t, d.queue + Reports(spoken[..n]), EndBefore(d, spoken, n)))
  }

  lemma {:induction false} OneMoreHeard(c: Setup, t: Detector, d: Detector, spoken: seq<Spoken>)
    requires Idle(d) && spoken != [] && HeardSoFar(t, d, spoken[..|spoken| - 1])
    requires Arrives(c, spoken[|spoken| - 1]) && Spaced(d, spoken, |spoken| - 1)
    ensures HeardSoFar(HearAll(c, t, spoken[|spoken| - 1].arrivals), d, spoken)
  {
    hide HearAll, OneDigit, Prompt, Unended, Clear, Report, ToldAs;
    var n := |spoken| - 1;
    var h, ts := spoken[n], spoken[n].digit.timestamp;
    if t.current.Some? {
      NextSettles(c, t, h);
    }
    assert n > 0 ==> spoken[..n][n - 1] == spoken[n - 1];
    assert Audible(Settled(t), ts);
    SpokenHeard(c, Settled(t), h);
    assert d.queue + Reports(spoken[..n]) + [ToldAs(h)] == d.queue + Reports(spoken);
  }

  lemma {:induction false} NextSettles(c: Setup, t: Detector, h: Spoken)
    requires t.current.Some? && t.digitTs == t.startedTs && Arrives(c, h)
    requires KeepsGap(t.startedTs, h.digit.timestamp) && Clear(t.lastEndTs, h.digit.timestamp)
    ensures HearAll(c, t, h.arrivals) == HearAll(c, Settled(t), h.arrivals)
  {
    hide BelongsTo, IsEnd;
    NextDigitSettles(c, t, h.digit, h.arrivals);
  }

  /** Any number of digits, each with an END arriving in time, or with updates only,
      and the interdigit gap kept, are reported in order, each exactly once; a digit
      without END when the next one begins, so that a last one is still due. */
  lemma {:induction false} DigitsHeardInOrder(c: Setup, d: Detector, spoken: seq<Spoken>)
    requires Idle(d) && Conversation(c, d, spoken)
    ensures HeardSoFar(HearSpoken(c, d, spoken), d, spoken)
    ensures HearSpoken(c, d, spoken).queue == d.queue +
      Reports(if spoken == [] || Ended(spoken[|spoken| - 1]) then spoken else spoken[..|spoken| - 1])
  {
    hide Arrives, HearAll, Audible, Clear, KeepsGap, Report;
    if spoken == [] {
      assert d.queue + [] == d.queue;
    } else {
      var before := spoken[..|spoken| - 1];
      forall i | 0 <= i < |before|
        ensures Arrives(c, before[i]) && Spaced(d, before, i)
      {
        assert Spaced(d, spoken, i);
      }
      DigitsHeardInOrder(c, d, before);
      OneMoreHeard(c, HearSpoken(c, d, before), d, spoken);
    }
  }

  // ---------- any number of digits sent ----------

  /** A digit as it was asked for and sent, and what arrives of it: arrival `j` is an
      END, or there is none. */
  datatype Call = Call(digit: char, durationMs: u32, number: u16, timestamp: u32, arrivals: seq<Arrival>, j: nat)

  ghost predicate Delivered(s: Sender, intervalMs: u32, c: Setup, call: Call)
    requires intervalMs > 0
  {
    && Sendable(call.durationMs, intervalMs, call.number) && |call.arrivals| <= SANITY_LIMIT + 2
    && Carries(s, call.digit, call.durationMs, intervalMs, call.number, call.timestamp, call.arrivals)
    && if call.j < |call.arrivals| then Prompt(c, call.arrivals, call.j) else Unended(c, call.arrivals)
  }

  /** With the duration sent when an END arrives, and else with as many intervals as
      the last update that was not overtaken had been sent for. */
  function CallReport(call: Call, intervalMs: u32): Detected
    requires intervalMs > 0 && FromChar(call.digit).Some?
  {
    var e := FromChar(call.digit).value;
    if call.j < |call.arrivals| then SentReport(e, call.durationMs, intervalMs)
    else Detected(ToChar(e), e, ReportedMs(intervalMs, Sub16(Foremost(call.arrivals), call.number) + 1), false)
  }

  function SentReports(calls: seq<Call>, intervalMs: u32): seq<Detected>
    requires intervalMs > 0 && forall i :: 0 <= i < |calls| ==> FromChar(calls[i].digit).Some?
  {
    if calls == [] then []
    else SentReports(calls[..|calls| - 1], intervalMs) + [CallReport(calls[|calls| - 1], intervalMs)]
  }

  function HearCalls(c: Setup, d: Detector, calls: seq<Call>): Detector {
    if calls == [] then d
    else HearAll(c, HearCalls(c, d, calls[..|calls| - 1]), calls[|calls| - 1].arrivals)
  }

  function SpokenOf(s: Sender, intervalMs: u32, call: Call): Spoken
    requires intervalMs > 0 && FromChar(call.digit).Some?
  {
    Spoken(DigitOf(s, call.digit, call.durationMs, intervalMs, call.number, call.timestamp), call.arrivals, call.j)
  }

  lemma {:induction false} UnendedSentReport(s: Sender, intervalMs: u32, call: Call, place: nat)
    requires intervalMs > 0 && FromChar(call.digit).Some?
    requires place < UpdateCount(Quotient(call.durationMs, intervalMs))
    ensures var e := FromChar(call.digit).value;
      UnendedReport(SpokenOf(s, intervalMs, call).digit, place)
      == Detected(ToChar(e), e, ReportedMs(intervalMs, place + 1), false)
  {
    hide Units, Quotient;
    EighthOf(intervalMs, place + 1);
  }

  lemma {:induction false} CallArrives(s: Sender, intervalMs: u32, c: Setup, call: Call)
    requires s.outDigit.None? && 1 <= intervalMs && c.expectedPt == s.payloadType && Delivered(s, intervalMs, c, call)
    ensures FromChar(call.digit).Some? && Arrives(c, SpokenOf(s, intervalMs, call))
    ensures ToldAs(SpokenOf(s, intervalMs, call)) == CallReport(call, intervalMs)
  {
    hide Sendable, Carries, Prompt, BelongsTo, DigitReport, UnendedReport, SentReport, ReportedMs;
    OnlyDigitsAreSent(s, call.digit, call.durationMs, intervalMs, call.number, call.timestamp, call.arrivals);
    SentDigitBelongs(
      s, call.digit, call.durationMs, intervalMs, call.number, call.timestamp, call.arrivals, c);
    var k := SpokenOf(s, intervalMs, call).digit;
    if call.j < |call.arrivals| {
      ReportOfSent(s, call.digit, call.durationMs, intervalMs, call.number, call.timestamp);
    } else {
      ForemostArrived(c, k, call.arrivals);
      UnendedSentReport(s, intervalMs, call, Place(k, Foremost(call.arrivals)));
      SameNumber(call.number);
    }
  }

  lemma {:induction false} CallsArrive(s: Sender, intervalMs: u32, c: Setup, d: Detector, calls: seq<Call>)
    returns (spoken: seq<Spoken>)
    requires s.outDigit.None? && 1 <= intervalMs && c.expectedPt == s.payloadType
    requires forall i :: 0 <= i < |calls| ==> Delivered(s, intervalMs, c, calls[i])
    ensures |spoken| == |calls| && forall i :: 0 <= i < |calls| ==>
      FromChar(calls[i].digit).Some? && Arrives(c, spoken[i]) && spoken[i] == SpokenOf(s, intervalMs, calls[i])
    ensures Reports(spoken) == SentReports(calls, intervalMs)
    ensures HearSpoken(c, d, spoken) == HearCalls(c, d, calls)
  {
    hide Delivered, Arrives, ToldAs, CallReport, HearAll;
    if calls == [] {
      spoken := [];
    } else {
      var before, call := calls[..|calls| - 1], calls[|calls| - 1];
      var earlier := CallsArrive(s, intervalMs, c, d, before);
      CallArrives(s, intervalMs, c, call);
      spoken := earlier + [SpokenOf(s, intervalMs, call)];
      assert spoken[..|earlier|] == earlier;
    }
  }

  /** Call `i` keeps the interdigit gap to the one before and, when of that no END
      arrives, to the one before that. */
  predicate CallSpaced(d: Detector, calls: seq<Call>, i: nat)
    requires i < |calls|
  {
    var ts := calls[i].timestamp;
    && (if i == 0 then Audible(d, ts) else KeepsGap(calls[i - 1].timestamp, ts))
    && (i == 0 && calls[0].j >= |calls[0].arrivals| ==> Clear(d.lastEndTs, ts))
    && (i > 0 && calls[i - 1].j >= |calls[i - 1].arrivals| ==>
          Clear(if i == 1 then d.lastEndTs else calls[i - 2].timestamp, ts))
  }

  lemma {:induction false} SpokenSpaced(
    s: Sender, intervalMs: u32, d: Detector, calls: seq<Call>, spoken: seq<Spoken>, i: nat)
    requires intervalMs > 0 && |spoken| == |calls| && i < |calls|
    requires forall m :: 0 <= m < |calls| ==>
      FromChar(calls[m].digit).Some? && spoken[m] == SpokenOf(s, intervalMs, calls[m])
    requires CallSpaced(d, calls, i)
    ensures Spaced(d, spoken, i)
  {
    hide Audible, Clear, SentDurations, Units, Quotient, UpdateCount, FromChar;
    assert spoken[i] == SpokenOf(s, intervalMs, calls[i]);
    if i > 0 {
      assert spoken[i - 1] == SpokenOf(s, intervalMs, calls[i - 1]);
    }
    if i > 1 {
      assert spoken[i - 2] == SpokenOf(s, intervalMs, calls[i - 2]);
    }
  }

  /** Any number of digits sent by an idle sender, of each of which an END arrives in
      time, or updates only, with the interdigit gap kept between them, are reported
      in order, each exactly once: with the duration sent, or with that of the
      foremost update. */
  lemma {:induction false} SentDigitsHeardInOrder(s: Sender, intervalMs: u32, c: Setup, d: Detector, calls: seq<Call>)
    requires s.outDigit.None? && 1 <= intervalMs && c.expectedPt == s.payloadType && Idle(d)
    requires forall i :: 0 <= i < |calls| ==> Delivered(s, intervalMs, c, calls[i]) && CallSpaced(d, calls, i)
    ensures forall i :: 0 <= i < |calls| ==> FromChar(calls[i].digit).Some?
    ensures Settled(HearCalls(c, d, calls)).queue == d.queue + SentReports(calls, intervalMs)
    ensures calls != [] && calls[|calls| - 1].j < |calls[|calls| - 1].arrivals| ==>
      HearCalls(c, d, calls).queue == d.queue + SentReports(calls, intervalMs)
  {
    hide Delivered, Arrives, HearAll, CallSpaced, Spaced, Report, SpokenOf, Settled;
    var spoken := CallsArrive(s, intervalMs, c, d, calls);
    forall i | 0 <= i < |spoken|
      ensures Arrives(c, spoken[i]) && Spaced(d, spoken, i)
    {
      SpokenSpaced(s, intervalMs, d, calls, spoken, i);
    }
    DigitsHeardInOrder(c, d, spoken);
    if calls != [] {
      EndedAsCalled(s, intervalMs, calls[|calls| - 1]);
      assert spoken[|spoken| - 1] == SpokenOf(s, intervalMs, calls[|calls| - 1]);
    }
  }

  lemma {:induction false} EndedAsCalled(s: Sender, intervalMs: u32, call: Call)
    requires intervalMs > 0 && FromChar(call.digit).Some?
    ensures Ended(SpokenOf(s, intervalMs, call)) <==> call.j < |call.arrivals|
  {
  }
}
