/** What the detector answers to each packet, and what makes it give up: the
    application learns of digits from these answers. */
module DtmfAnswers {
  import opened Words
  import opened DtmfPayload
  import opened DtmfSending
  import opened DtmfDetecting
  import opened DtmfChannel
  import opened DtmfConversation

  // ---------- one packet ----------

  /** The reports among `reports` that an END made. */
  function Ends(reports: seq<Detected>): seq<Detected> {
    if reports == [] then []
    else
      var r := reports[|reports| - 1];
      Ends(reports[..|reports| - 1]) + if r.isEnd then [r] else []
  }

  lemma {:induction false} EndsAppend(a: seq<Detected>, b: seq<Detected>)
    ensures Ends(a + b) == Ends(a) + Ends(b)
  {
    if b == [] {
      assert a + b == a;
    } else {
      var b1 := b[..|b| - 1];
      assert (a + b)[..|a + b| - 1] == a + b1;
      EndsAppend(a, b1);
    }
  }

  function Listed(answer: Option<Detected>): seq<Detected> {
    if answer.Some? then [answer.value] else []
  }

  /** A step only appends to the queue, and answers the report of an END that it
      appends, if it appends one. */
  ghost predicate AnswersItsEnd(before: Detector, after: Detector, answer: Option<Detected>) {
    && |before.queue| <= |after.queue| && after.queue[..|before.queue|] == before.queue
    && Ends(after.queue[|before.queue|..]) == Listed(answer)
    && (answer.Some? ==> after.queue[|after.queue| - 1] == answer.value && answer.value.isEnd)
  }

  lemma {:induction false} Unanswered(before: Detector, after: Detector, unended: seq<Detected>)
    requires after.queue == before.queue + unended && |unended| <= 1 && (unended != [] ==> !unended[0].isEnd)
    ensures AnswersItsEnd(before, after, None)
  {
    assert after.queue[|before.queue|..] == unended;
    assert unended != [] ==> unended[..0] == [];
  }

  lemma {:induction false} Answered(before: Detector, after: Detector, unended: seq<Detected>, report: Detected)
    requires after.queue == before.queue + unended + [report] && report.isEnd
    requires |unended| <= 1 && (unended != [] ==> !unended[0].isEnd)
    ensures AnswersItsEnd(before, after, Some(report))
  {
    assert after.queue[|before.queue|..] == unended + [report];
    assert (unended + [report])[..|unended|] == unended;
    assert unended != [] ==> unended[..0] == [];
    assert Ends(unended) == [];
  }

  lemma {:induction false} MeasureAnswers(d: Detector, p: Payload, ts: u32)
    ensures var (r, answer) := Measure(d, p, ts);
      && r.queue == d.queue + Listed(answer) && (answer.Some? ==> answer.value.isEnd)
      && (answer.Some? <==> p.isEnd && d.current.Some? && r.current.None? && r.lastEndTs == ts && r.queue != d.queue)
  {
    hide ToChar;
  }

  /** At most one digit without END is completed before a packet is measured. */
  lemma {:induction false} AcceptAnswers(c: Setup, d: Detector, p: Payload, ts: u32, now: nat)
    requires p.event <= 15
    ensures var (r, answer) := Accept(c, d, p, ts, now);
      exists unended: seq<Detected> ::
        && |unended| <= 1 && (unended != [] ==> !unended[0].isEnd)
        && r.queue == d.queue + unended + Listed(answer) && (answer.Some? ==> answer.value.isEnd)
  {
    hide Measure, ToChar, TimedOut;
    var d1 := CheckTimeout(c, d, ts, now);
    var d2 := if ts != d1.startedTs then BeginDigit(d1, p.event, ts, now) else d1;
    MeasureAnswers(d2, p, ts);
    var unended := d2.queue[|d.queue|..];
    assert d2.queue == d.queue + unended;
    assert |unended| <= 1 && (unended != [] ==> !unended[0].isEnd);
    if ts == d1.startedTs && d1.current.Some? && d1.current.value != p.event {
      assert Accept(c, d, p, ts, now).0.queue == d.queue + unended + [];
    }
  }

  /** Whatever the detector and the packet: the answer is `report` if and only if the
      step ends by appending it as the report of an END. */
  lemma {:induction false} AnswerIsEndReport(
    c: Setup, d: Detector, payloadType: byte, number: u16, ts: u32, payload: seq<byte>, now: nat)
    ensures var (r, answer) := ProcessRtp(c, d, payloadType, number, ts, payload, now);
      AnswersItsEnd(d, r, answer)
  {
    hide Accept, Suppressed, Overtaken, Parse, AnswersItsEnd;
    var (r, answer) := ProcessRtp(c, d, payloadType, number, ts, payload, now);
    if r.queue == d.queue && answer.None? {
      assert d.queue + [] == d.queue;
      Unanswered(d, r, []);
    } else {
      var p := Parse(payload).value;
      ParseIsDigit(payload);
      AcceptAnswers(c, Note(d, number, ts), p, ts, now);
      var unended: seq<Detected> :| |unended| <= 1 && (unended != [] ==> !unended[0].isEnd)
        && r.queue == d.queue + unended + Listed(answer) && (answer.Some? ==> answer.value.isEnd);
      if answer.Some? {
        Answered(d, r, unended, answer.value);
      } else {
        assert d.queue + unended + [] == d.queue + unended;
        Unanswered(d, r, unended);
      }
    }
  }

  lemma {:induction false} ParseIsDigit(payload: seq<byte>)
    ensures Parse(payload).Some? ==> Parse(payload).value.event <= 15
  {
  }

  // ---------- runs ----------

  function Answer(c: Setup, d: Detector, a: Arrival): Option<Detected> {
    ProcessRtp(c, d, a.packet.payloadType, a.packet.number, a.packet.timestamp, a.packet.payload, a.now).1
  }

  /** The answers to a run of arrivals, in order. */
  function Answers(c: Setup, d: Detector, arrivals: seq<Arrival>): seq<Detected> {
    if arrivals == [] then []
    else
      var earlier := arrivals[..|arrivals| - 1];
      Answers(c, d, earlier) + Listed(Answer(c, HearAll(c, d, earlier), arrivals[|arrivals| - 1]))
  }

  /** Over any run of arrivals the answers are exactly the reports of ENDs that the
      run adds to the queue, in their order. */
  lemma {:induction false} AnswersAreEnds(c: Setup, d: Detector, arrivals: seq<Arrival>)
    ensures var q := HearAll(c, d, arrivals).queue;
      |d.queue| <= |q| && q[..|d.queue|] == d.queue && Answers(c, d, arrivals) == Ends(q[|d.queue|..])
  {
    hide ProcessRtp, Ends;
    if arrivals == [] {
      NoEnds();
      assert d.queue[|d.queue|..] == [];
    } else {
      var earlier, a := arrivals[..|arrivals| - 1], arrivals[|arrivals| - 1];
      AnswersAreEnds(c, d, earlier);
      var t := HearAll(c, d, earlier);
      AnswerIsEndReport(
        c, t, a.packet.payloadType, a.packet.number, a.packet.timestamp, a.packet.payload, a.now);
      EndsJoin(d.queue, t.queue, HearAll(c, d, arrivals).queue);
    }
  }

  lemma {:induction false} EndsJoin(first: seq<Detected>, second: seq<Detected>, third: seq<Detected>)
    requires |first| <= |second| <= |third| && second[..|first|] == first && third[..|second|] == second
    ensures third[..|first|] == first
    ensures Ends(third[|first|..]) == Ends(second[|first|..]) + Ends(third[|second|..])
  {
    assert third[|first|..] == second[|first|..] + third[|second|..];
    EndsAppend(second[|first|..], third[|second|..]);
  }

  lemma {:induction false} NoEnds()
    ensures Ends([]) == []
  {
  }

  lemma {:induction false} EndsOfOne(report: Detected)
    ensures Ends([report]) == if report.isEnd then [report] else []
  {
    assert [report][..0] == [];
  }

  /** A digit over a lossy channel is answered exactly once: whatever arrives of it,
      once an END does in time, one arrival is answered, with the digit and the
      duration that were sent, and no other. */
  lemma {:induction false} SentDigitAnsweredOnce(
    s: Sender, digit: char, durationMs: u32, intervalMs: u32, number: u16, audioTs: u32, c: Setup, d: Detector,
    arrivals: seq<Arrival>, j: nat)
    requires s.outDigit.None? && 1 <= intervalMs && c.expectedPt == s.payloadType
    requires Sendable(durationMs, intervalMs, number)
    requires Carries(s, digit, durationMs, intervalMs, number, audioTs, arrivals) && Prompt(c, arrivals, j)
    requires Idle(d) && Audible(d, audioTs) && |arrivals| <= SANITY_LIMIT + 2
    ensures FromChar(digit).Some?
    ensures Answers(c, d, arrivals) == [SentReport(FromChar(digit).value, durationMs, intervalMs)]
  {
    hide HearAll, Carries, Prompt, Sendable, Audible, SentReport;
    DigitOverLossyChannel(s, digit, durationMs, intervalMs, number, audioTs, c, d, arrivals, j);
    AnswersAreEnds(c, d, arrivals);
    var r := SentReport(FromChar(digit).value, durationMs, intervalMs);
    assert HearAll(c, d, arrivals).queue[|d.queue|..] == [r];
    EndsOfOne(r);
    SentReportIsEnd(FromChar(digit).value, durationMs, intervalMs);
  }

  lemma {:induction false} SentReportIsEnd(e: Event, durationMs: u32, intervalMs: u32)
    requires intervalMs > 0
    ensures SentReport(e, durationMs, intervalMs).isEnd
  {
  }

  // ---------- a stuck stream ----------

  /** What the detector forgets, it forgets but for the digits it has queued. */
  predicate Forgotten(d: Detector, r: Detector) {
    && r.current.None? && r.queue == d.queue && r.startTime.None?
    && r.prevNumber == 0 && r.digitTs == 0 && r.startedTs == 0 && r.sanity == 0 && r.lastDuration == 0
    && r.flip == 0 && r.lastEndTs == 0 && r.firstTs == 0
  }

  /** A digit of more than thirty seconds is forgotten, one of thirty is not. */
  lemma {:induction false} TooLongIsForgotten(d: Detector, p: Payload, ts: u32)
    requires p.duration >= d.lastDuration
    ensures p.duration + d.flip > 8000 * 30 ==> Forgotten(d, Measure(d, p, ts).0) && Measure(d, p, ts).1 == None
    ensures p.duration + d.flip <= 8000 * 30 ==> Measure(d, p, ts).0.lastDuration == p.duration
  {
    hide Report;
  }

  /** Of one timestamp the detector lets 1501 packets through after the first, and
      counts them; the next one makes it forget the digit. */
  lemma {:induction false} StuckStreamIsForgotten(
    c: Setup, d: Detector, before: Detector, k: Digit, a: Arrival, start: nat, heard: nat)
    requires Sane(k) && c.expectedPt == k.pt && BelongsTo(a.packet, k) && !IsEnd(a.packet)
    requires Clear(before.lastEndTs, k.timestamp) && InDigit(d, before, k, start, heard)
    requires !Overtaken(d, a.packet.number, k.timestamp)
    ensures d.sanity > 1500 ==> Forgotten(d, Hear(c, d, a))
    ensures d.sanity <= 1500 && !Late(c, start, a.now) ==> Hear(c, d, a).sanity == d.sanity + 1
  {
    hide Parse, Place, Overtaken, Measure, DurationAt, Late;
    if d.sanity <= 1500 && !Late(c, start, a.now) {
      InDigitLonger(d, before, k, start, heard);
      LetThrough(c, d, before, k, a, start, d.sanity + 1);
      AcceptsInDigit(c, d, before, k, a, start, d.sanity + 1);
      MeasureKeepsSanity(
        Note(d, a.packet.number, k.timestamp), Parse(a.packet.payload).value, k.timestamp, d, before, k, start);
    }
  }

  lemma {:induction false} InDigitLonger(d: Detector, before: Detector, k: Digit, start: nat, heard: nat)
    requires InDigit(d, before, k, start, heard)
    ensures InDigit(d, before, k, start, d.sanity + 1)
  {
  }

  lemma {:induction false} MeasureKeepsSanity(
    n: Detector, q: Payload, ts: u32, d: Detector, before: Detector, k: Digit, start: nat)
    requires n.flip == 0 && n.sanity == d.sanity + 1
    ensures Measure(n, q, ts).0.sanity == d.sanity + 1
  {
  }

  /** A digit in progress is completed after the timeout with all it has lasted, wraps
      included, and nothing of it stays behind. */
  lemma {:induction false} TimeoutCompletes(c: Setup, d: Detector, ts: u32, now: nat)
    requires d.current.Some? && d.startTime.Some? && Late(c, d.startTime.value, now)
    ensures CheckTimeout(c, d, ts, now)
         == d.(current := None, lastDuration := 0, flip := 0, lastEndTs := d.startedTs, firstTs := 0,
               startTime := None,
               queue := d.queue + [Detected(ToChar(d.current.value), d.current.value,
                                            Max((d.lastDuration + d.flip) / 8, 50), false)])
  {
    hide ToChar;
  }

  /** An END that says the digit has lasted nothing discards it, unreported. */
  lemma {:induction false} EmptyDigitIsDropped(d: Detector, p: Payload, ts: u32)
    requires p.isEnd && p.duration == 0 && d.flip == 0 && d.lastDuration < FLIP_THRESHOLD
    ensures var (r, answer) := Measure(d, p, ts);
      r.current.None? && r.queue == d.queue && answer.None? && r.lastEndTs == d.lastEndTs
  {
  }

  // ---------- the timeout by timestamps ----------

  /** The timeout in timestamps decides nothing: a later timestamp begins a digit, and
      that completes the one in progress, however much later it is. */
  lemma {:induction false} TimestampTimeoutIsIdle(c: Setup, d: Detector, p: Payload, ts: u32, now: nat)
    requires p.event <= 15 && (d.current.Some? ==> d.firstTs == d.startedTs)
    ensures var (r, answer) := Accept(c, d, p, ts, now);
      var (r0, answer0) := Accept(c, d.(firstTs := 0), p, ts, now);
      answer == answer0 && r == r0.(firstTs := r.firstTs)
  {
    hide ToChar, Measure, Report, BeginDigit, CheckTimeout;
    if ts == d.startedTs {
      SameTimeout(c, d, ts, now);
      MeasureKeepsFirst(CheckTimeout(c, d, ts, now), p, ts);
    } else {
      SameBeginning(c, d, p.event, ts, now);
    }
  }

  lemma {:induction false} SameTimeout(c: Setup, d: Detector, ts: u32, now: nat)
    requires ts == d.startedTs && (d.current.Some? ==> d.firstTs == d.startedTs)
    ensures CheckTimeout(c, d.(firstTs := 0), ts, now) == CheckTimeout(c, d, ts, now).(firstTs := 0)
    ensures CheckTimeout(c, d, ts, now).startedTs == d.startedTs
    ensures CheckTimeout(c, d.(firstTs := 0), ts, now).current == CheckTimeout(c, d, ts, now).current
  {
    hide ToChar;
    assert Sub32(ts, ts) == 0;
  }

  lemma {:induction false} SameBeginning(c: Setup, d: Detector, e: Event, ts: u32, now: nat)
    requires ts != d.startedTs
    ensures BeginDigit(CheckTimeout(c, d.(firstTs := 0), ts, now), e, ts, now)
         == BeginDigit(CheckTimeout(c, d, ts, now), e, ts, now)
    ensures CheckTimeout(c, d, ts, now).startedTs == CheckTimeout(c, d.(firstTs := 0), ts, now).startedTs == d.startedTs
  {
    hide ToChar, TimedOut;
  }

  /** Measuring a packet does not look at when the digit began. */
  lemma {:induction false} MeasureKeepsFirst(d: Detector, p: Payload, ts: u32)
    ensures var (r, answer) := Measure(d, p, ts);
      var (r0, answer0) := Measure(d.(firstTs := 0), p, ts);
      answer == answer0 && r == r0.(firstTs := r.firstTs)
  {
    hide ToChar;
  }

  /** In every run of packets the digit in progress keeps the timestamp it began with. */
  lemma {:induction false} FirstIsStarted(
    c: Setup, d: Detector, payloadType: byte, number: u16, ts: u32, payload: seq<byte>, now: nat)
    requires d.current.Some? ==> d.firstTs == d.startedTs
    ensures var r := ProcessRtp(c, d, payloadType, number, ts, payload, now).0;
      r.current.Some? ==> r.firstTs == r.startedTs
  {
    hide ToChar, Parse, Suppressed, Overtaken;
    ParseIsDigit(payload);
  }

  // ---------- a digit longer than sixteen bits hold ----------

  /** The update of a digit that has lasted `x` timestamp units. */
  function UpdateAt(e: byte, x: nat): Payload {
    Payload(e, false, DEFAULT_VOLUME, Low16(x))
  }

  function MeasureAll(d: Detector, e: byte, xs: seq<nat>, ts: u32): Detector {
    if xs == [] then d else Measure(MeasureAll(d, e, xs[..|xs| - 1], ts), UpdateAt(e, xs[|xs| - 1]), ts).0
  }

  function LastOf(from: nat, xs: seq<nat>): nat {
    if xs == [] then from else xs[|xs| - 1]
  }

  /** Each duration follows the one before by at most a thousand units. */
  predicate Steps(from: nat, xs: seq<nat>) {
    xs == [] || (Steps(from, xs[..|xs| - 1])
                 && LastOf(from, xs[..|xs| - 1]) <= xs[|xs| - 1] <= LastOf(from, xs[..|xs| - 1]) + 1000)
  }

  /** What the detector makes of `x` units: each wrap of the 16-bit field costs one. */
  function Heard(x: nat): nat {
    x - x / 0x1_0000
  }

  predicate HasHeard(d: Detector, x: nat) {
    d.lastDuration == Low16(x) && d.flip == 0xFFFF * (x / 0x1_0000)
  }

  lemma {:induction false} WrapStep(x: nat, y: nat)
    requires x <= y <= x + 1000
    ensures y / 0x1_0000 == x / 0x1_0000 + if Low16(y) < Low16(x) then 1 else 0
    ensures Low16(y) < Low16(x) ==> Low16(x) >= 0xFC17
    ensures Low16(x) + 0xFFFF * (x / 0x1_0000) == Heard(x)
  {
    assert x == 0x1_0000 * (x / 0x1_0000) + Low16(x) && y == 0x1_0000 * (y / 0x1_0000) + Low16(y);
  }

  lemma {:induction false} HearsOn(d: Detector, e: byte, isEnd: bool, x: nat, y: nat, ts: u32)
    requires HasHeard(d, x) && x <= y <= x + 1000 && 0 < Heard(y) <= 240000 && d.current.Some?
    ensures var (r, answer) := Measure(d, Payload(e, isEnd, DEFAULT_VOLUME, Low16(y)), ts);
      && (!isEnd ==> HasHeard(r, y) && r.current == d.current && r.queue == d.queue)
      && (isEnd ==> answer == Some(Detected(ToChar(d.current.value), d.current.value, Max(Heard(y) / 8, 50), true)))
  {
    hide ToChar, Low16, Heard;
    WrapStep(x, y);
    WrapStep(y, y);
  }

  lemma {:induction false} HeardGrows(x: nat, y: nat)
    requires x <= y
    ensures Heard(x) <= Heard(y) && (0 < x ==> 0 < Heard(x))
  {
  }

  lemma {:induction false} UpdatesHeard(d: Detector, e: byte, from: nat, xs: seq<nat>, ts: u32)
    requires d.current.Some? && HasHeard(d, from) && 0 < from && Steps(from, xs)
    requires Heard(LastOf(from, xs)) <= 240000
    ensures var t := MeasureAll(d, e, xs, ts);
      HasHeard(t, LastOf(from, xs)) && t.current == d.current && t.queue == d.queue && from <= LastOf(from, xs)
  {
    hide Low16, Heard, Measure, HasHeard;
    if xs == [] {
    } else {
      var before, last := xs[..|xs| - 1], xs[|xs| - 1];
      HeardGrows(LastOf(from, before), last);
      UpdatesHeard(d, e, from, before, ts);
      HeardGrows(last, last);
      HearsOn(MeasureAll(d, e, before, ts), e, false, LastOf(from, before), last, ts);
    }
  }

  /** A digit of up to thirty seconds, whose updates come in order and no more than a
      thousand units apart, is reported with the duration it had, less one timestamp
      unit for each wrap of the 16-bit field. */
  lemma {:induction false} WrapsAreCounted(d: Detector, e: byte, from: nat, xs: seq<nat>, y: nat, ts: u32)
    requires d.current.Some? && HasHeard(d, from) && 0 < from && Steps(from, xs)
    requires LastOf(from, xs) <= y <= LastOf(from, xs) + 1000 && Heard(y) <= 240000
    ensures Measure(MeasureAll(d, e, xs, ts), Payload(e, true, DEFAULT_VOLUME, Low16(y)), ts).1
         == Some(Detected(ToChar(d.current.value), d.current.value, Max(Heard(y) / 8, 50), true))
  {
    hide ToChar, Low16, Heard, Measure, HasHeard;
    HeardGrows(LastOf(from, xs), y);
    UpdatesHeard(d, e, from, xs, ts);
    HeardGrows(y, y);
    HearsOn(MeasureAll(d, e, xs, ts), e, true, LastOf(from, xs), y, ts);
  }
}
