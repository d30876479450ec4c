/** The detector and the packets of one digit, over a channel that loses,
    duplicates and reorders them. */
module DtmfChannel {
  import opened Words
  import opened DtmfPayload
  import opened DtmfSending
  import opened DtmfDetecting

  datatype Arrival = Arrival(packet: DtmfPacket, now: nat)

  /** The packets of one digit: updates numbered from `base` with these durations,
      and an END under the next number that reports `duration`. */
  datatype Digit = Digit(pt: byte, base: int, timestamp: u32, event: Event, updates: seq<u16>, duration: u16)

  /** Where a number stands among the digit's, the END's being the last. */
  function Place(k: Digit, number: u16): nat {
    Sub16(number, Low16(k.base))
  }

  function DurationAt(k: Digit, place: nat): u16 {
    if place < |k.updates| then k.updates[place] else k.duration
  }

  /** A digit that never comes to the zone of 16-bit wrap-around. */
  predicate Short(k: Digit) {
    k.duration < FLIP_THRESHOLD
  }

  predicate Rising(k: Digit) {
    forall i, j :: 0 <= i <= j < |k.updates| ==> k.updates[i] <= k.updates[j]
  }

  /** No update is longer than the END; and the durations of a long digit rise, and
      its numbers leave out 0, with which the detector knows no order. */
  predicate Sane(k: Digit) {
    && 1 <= |k.updates| <= 0x8000 && 0 < k.duration
    && (forall i :: 0 <= i < |k.updates| ==> k.updates[i] <= k.duration)
    && (Short(k) || (Rising(k) && |k.updates| < 0x8000 && Place(k, 0) > |k.updates|))
  }

  predicate BelongsTo(p: DtmfPacket, k: Digit) {
    && p.payloadType == k.pt && p.timestamp == k.timestamp
    && Place(k, p.number) <= |k.updates|
    && Parse(p.payload).Some?
    && var q := Parse(p.payload).value;
    && q.event == k.event
    && (q.isEnd <==> Place(k, p.number) == |k.updates|)
    && q.duration == DurationAt(k, Place(k, p.number))
  }

  predicate IsEnd(p: DtmfPacket) {
    Parse(p.payload).Some? && Parse(p.payload).value.isEnd
  }

  function Hear(c: Setup, d: Detector, a: Arrival): Detector {
    ProcessRtp(c, d, a.packet.payloadType, a.packet.number, a.packet.timestamp, a.packet.payload, a.now).0
  }

  function HearAll(c: Setup, d: Detector, arrivals: seq<Arrival>): Detector {
    if arrivals == [] then d
    else Hear(c, HearAll(c, d, arrivals[..|arrivals| - 1]), arrivals[|arrivals| - 1])
  }

  predicate Idle(d: Detector) {
    d.current.None? && d.digitTs == d.startedTs
  }

  /** A detector not in the middle of a digit hears a digit at `ts` unless that is
      the timestamp of the digit before, or lies within the interdigit gap. */
  predicate Audible(d: Detector, ts: u32) {
    ts != d.startedTs && (ts == d.lastEndTs || Clear(d.lastEndTs, ts))
  }

  /** An update at `ts` is not taken for one that follows an END too closely. */
  predicate Clear(lastEndTs: u32, ts: u32) {
    lastEndTs == 0 || Sub32(ts, lastEndTs) >= INTERDIGIT_GAP
  }

  function DigitReport(k: Digit): Detected {
    Detected(ToChar(k.event), k.event, Max(k.duration / 8, MIN_DURATION_MS), true)
  }

  /** The report of a digit without END, of which the update at `place` was the last
      let through. */
  function UnendedReport(k: Digit, place: nat): Detected {
    Detected(ToChar(k.event), k.event, Max(DurationAt(k, place) / 8, MIN_DURATION_MS), false)
  }

  // ---------- the three phases of hearing a digit ----------

  predicate InDigit(d: Detector, before: Detector, k: Digit, start: nat, heard: nat) {
    && d.current == Some(k.event) && d.digitTs == d.startedTs == k.timestamp
    && d.flip == 0 && Place(k, d.prevNumber) < |k.updates| && d.lastDuration == DurationAt(k, Place(k, d.prevNumber))
    && d.lastEndTs == before.lastEndTs && d.firstTs == k.timestamp && d.startTime == Some(start)
    && d.queue == before.queue && d.sanity < heard
  }

  predicate Reported(d: Detector, before: Detector, k: Digit, report: Detected, heard: nat) {
    && d.current.None? && d.digitTs == d.startedTs == d.lastEndTs == k.timestamp
    && d.flip == 0 && Place(k, d.prevNumber) <= |k.updates| && d.lastDuration == DurationAt(k, Place(k, d.prevNumber))
    && d.firstTs == 0 && d.startTime.None? && d.queue == before.queue + [report] && d.sanity < heard
  }

  predicate Finished(d: Detector, before: Detector, k: Digit, heard: nat) {
    Reported(d, before, k, DigitReport(k), heard)
  }

  lemma {:induction false} FirstUpdate(c: Setup, d: Detector, k: Digit, a: Arrival)
    requires Sane(k) && c.expectedPt == k.pt && BelongsTo(a.packet, k) && !IsEnd(a.packet)
    requires Idle(d) && Audible(d, k.timestamp)
    ensures var d1 := Hear(c, d, a);
      if Clear(d.lastEndTs, k.timestamp) then InDigit(d1, d, k, a.now, 1) && d1.prevNumber == a.packet.number
      else d1 == d
  {
    hide Parse, Rising;
  }

  lemma {:induction false} FirstEnd(c: Setup, d: Detector, k: Digit, a: Arrival)
    requires Sane(k) && c.expectedPt == k.pt && BelongsTo(a.packet, k) && IsEnd(a.packet)
    requires Idle(d) && Audible(d, k.timestamp)
    ensures Finished(Hear(c, d, a), d, k, 1)
  {
    hide Parse, Rising;
  }

  /** A packet at `now` of a digit begun at `start` comes after the timeout. */
  predicate Late(c: Setup, start: nat, now: nat) {
    Low32(SaturatingSub(now, start)) > c.endTimeoutMs
  }

  /** In the middle of a digit, a packet of it. */
  ghost predicate CarriesOn(c: Setup, d: Detector, before: Detector, k: Digit, a: Arrival, start: nat, heard: nat) {
    && Sane(k) && c.expectedPt == k.pt && BelongsTo(a.packet, k)
    && Clear(before.lastEndTs, k.timestamp)
    && InDigit(d, before, k, start, heard) && heard <= SANITY_LIMIT + 1
  }

  /** It is either overtaken, and dropped, or let through. */
  lemma {:induction false} LetThrough(
    c: Setup, d: Detector, before: Detector, k: Digit, a: Arrival, start: nat, heard: nat)
    requires CarriesOn(c, d, before, k, a, start, heard)
    ensures Overtaken(d, a.packet.number, k.timestamp) ==> Hear(c, d, a) == d
    ensures !Overtaken(d, a.packet.number, k.timestamp) ==>
      Hear(c, d, a)
      == Accept(c, Note(d, a.packet.number, k.timestamp), Parse(a.packet.payload).value, k.timestamp, a.now).0
  {
    hide Accept, Overtaken, Parse, Sub16, Rising, DurationAt;
    assert Sub32(k.timestamp, k.timestamp) == 0;
  }

  lemma {:induction false} AcceptsInDigit(
    c: Setup, d: Detector, before: Detector, k: Digit, a: Arrival, start: nat, heard: nat)
    requires CarriesOn(c, d, before, k, a, start, heard)
    ensures var n, q := Note(d, a.packet.number, k.timestamp), Parse(a.packet.payload).value;
      var n1 := if Late(c, start, a.now) then ForceComplete(n).(flip := 0, lastDuration := 0) else n;
      Accept(c, n, q, k.timestamp, a.now) == Measure(n1, q, k.timestamp)
  {
    hide Measure, Parse, Overtaken, Report, Sane, Place, DurationAt;
    assert Sub32(k.timestamp, k.timestamp) == 0;
  }

  /** The END is the last number of its digit, so nothing overtakes it. */
  lemma {:induction false} EndIsAhead(d: Detector, before: Detector, k: Digit, a: Arrival, start: nat, heard: nat)
    requires Sane(k) && BelongsTo(a.packet, k) && IsEnd(a.packet) && InDigit(d, before, k, start, heard)
    ensures !Overtaken(d, a.packet.number, k.timestamp)
  {
    hide Parse, Rising, DurationAt;
  }

  /** Going on within a digit never looks like a duration that has wrapped. */
  lemma {:induction false} NoFlip(k: Digit, from: nat, to: nat)
    requires Sane(k) && to <= |k.updates| && (Short(k) || from < to)
    ensures DurationAt(k, to) >= DurationAt(k, from) || DurationAt(k, from) < FLIP_THRESHOLD
  {
    hide Place;
  }

  lemma {:induction false} NotOvertakenIsAhead(d: Detector, k: Digit, number: u16)
    requires d.digitTs == k.timestamp && !Overtaken(d, number, k.timestamp) && d.prevNumber != 0
    requires Place(k, number) < 0x8000 && Place(k, d.prevNumber) < 0x8000
    ensures Place(k, number) > Place(k, d.prevNumber)
  {
  }

  lemma {:induction false} MeasuresEnd(
    d: Detector, before: Detector, k: Digit, q: Payload, number: u16, start: nat, heard: nat)
    requires Sane(k) && InDigit(d, before, k, start, heard) && Place(k, number) == |k.updates|
    requires q.event == k.event && q.isEnd && q.duration == k.duration
    ensures Finished(Measure(Note(d, number, k.timestamp), q, k.timestamp).0, before, k, heard + 1)
  {
    hide Place, Rising;
  }

  /** A packet let through that is not overtaken keeps to the digit's numbers. */
  lemma {:induction false} MeasuresUpdate(
    d: Detector, before: Detector, k: Digit, q: Payload, number: u16, start: nat, heard: nat)
    requires Sane(k) && InDigit(d, before, k, start, heard) && Place(k, number) < |k.updates|
    requires !Overtaken(d, number, k.timestamp)
    requires q.event == k.event && !q.isEnd && q.duration == DurationAt(k, Place(k, number))
    ensures InDigit(Measure(Note(d, number, k.timestamp), q, k.timestamp).0, before, k, start, heard + 1)
    ensures Measure(Note(d, number, k.timestamp), q, k.timestamp).0.prevNumber == number
  {
    hide Place, Rising, Overtaken;
    if !Short(k) {
      NotOvertakenIsAhead(d, k, number);
    }
    NoFlip(k, Place(k, d.prevNumber), Place(k, number));
  }

  lemma {:induction false} NextUpdate(
    c: Setup, d: Detector, before: Detector, k: Digit, a: Arrival, start: nat, heard: nat)
    requires CarriesOn(c, d, before, k, a, start, heard) && !IsEnd(a.packet) && !Late(c, start, a.now)
    ensures InDigit(Hear(c, d, a), before, k, start, heard + 1)
    ensures Hear(c, d, a).prevNumber
         == if Overtaken(d, a.packet.number, k.timestamp) then d.prevNumber else a.packet.number
  {
    hide Accept, Measure, Overtaken, Parse, Hear, Place, Sane, Late, DurationAt;
    LetThrough(c, d, before, k, a, start, heard);
    if !Overtaken(d, a.packet.number, k.timestamp) {
      AcceptsInDigit(c, d, before, k, a, start, heard);
      MeasuresUpdate(d, before, k, Parse(a.packet.payload).value, a.packet.number, start, heard);
    }
  }

  lemma {:induction false} EndOfDigit(
    c: Setup, d: Detector, before: Detector, k: Digit, a: Arrival, start: nat, heard: nat)
    requires CarriesOn(c, d, before, k, a, start, heard) && IsEnd(a.packet) && !Late(c, start, a.now)
    ensures Finished(Hear(c, d, a), before, k, heard + 1)
  {
    hide Accept, Measure, Overtaken, Parse, Hear, Place, Sane, Late, Finished;
    LetThrough(c, d, before, k, a, start, heard);
    EndIsAhead(d, before, k, a, start, heard);
    AcceptsInDigit(c, d, before, k, a, start, heard);
    MeasuresEnd(d, before, k, Parse(a.packet.payload).value, a.packet.number, start, heard);
  }

  /** The first packet let through after the timeout completes the digit, with the
      last duration before it. */
  lemma {:induction false} LatePacket(
    c: Setup, d: Detector, before: Detector, k: Digit, a: Arrival, start: nat, heard: nat)
    requires CarriesOn(c, d, before, k, a, start, heard) && Late(c, start, a.now)
    requires !Overtaken(d, a.packet.number, k.timestamp)
    ensures Reported(Hear(c, d, a), before, k, UnendedReport(k, Place(k, d.prevNumber)), heard + 1)
  {
    hide Accept, Overtaken, Parse, Hear, Place, Rising, Late;
    LetThrough(c, d, before, k, a, start, heard);
    AcceptsInDigit(c, d, before, k, a, start, heard);
  }

  /** Once a digit has been reported no packet of it is reported again. */
  lemma {:induction false} AfterReport(
    c: Setup, d: Detector, before: Detector, k: Digit, a: Arrival, report: Detected, heard: nat)
    requires Sane(k) && c.expectedPt == k.pt && BelongsTo(a.packet, k)
    requires Reported(d, before, k, report, heard) && heard <= SANITY_LIMIT + 1
    ensures Reported(Hear(c, d, a), before, k, report, heard + 1)
  {
    hide Parse, Place, Rising, Overtaken, DurationAt;
    if !Overtaken(d, a.packet.number, k.timestamp) {
      if !Short(k) {
        NotOvertakenIsAhead(d, k, a.packet.number);
      }
      NoFlip(k, Place(k, d.prevNumber), Place(k, a.packet.number));
    }
  }

  // ---------- a digit that is heard ----------

  ghost predicate OneDigit(c: Setup, k: Digit, arrivals: seq<Arrival>) {
    Sane(k) && c.expectedPt == k.pt && forall i :: 0 <= i < |arrivals| ==> BelongsTo(arrivals[i].packet, k)
  }

  /** Any of the reports that a digit can have. */
  ghost predicate ReportOf(k: Digit, report: Detected) {
    report == DigitReport(k) || exists i :: 0 <= i < |k.updates| && report == UnendedReport(k, i)
  }

  ghost predicate OnceAtMost(d: Detector, before: Detector, k: Digit, heard: nat) {
    || d == before
    || (Clear(before.lastEndTs, k.timestamp) && exists start :: InDigit(d, before, k, start, heard))
    || exists report :: ReportOf(k, report) && Reported(d, before, k, report, heard)
  }

  lemma {:induction false} OnceStep(c: Setup, d: Detector, before: Detector, k: Digit, a: Arrival, heard: nat)
    requires Sane(k) && c.expectedPt == k.pt && BelongsTo(a.packet, k) && Idle(before) && Audible(before, k.timestamp)
    requires OnceAtMost(d, before, k, heard) && heard <= SANITY_LIMIT + 1
    ensures OnceAtMost(Hear(c, d, a), before, k, heard + 1)
  {
    hide Hear, BelongsTo, IsEnd, Reported, Overtaken, Late, Sane, Place;
    if d == before {
      if IsEnd(a.packet) {
        FirstEnd(c, before, k, a);
        MoreHeard(Hear(c, d, a), before, k, DigitReport(k), 1, heard + 1);
      } else {
        FirstUpdate(c, before, k, a);
        if Clear(before.lastEndTs, k.timestamp) {
          LongerHeard(Hear(c, d, a), before, k, a.now, 1, heard + 1);
        }
      }
    } else if report :| ReportOf(k, report) && Reported(d, before, k, report, heard) {
      AfterReport(c, d, before, k, a, report, heard);
    } else {
      var start :| InDigit(d, before, k, start, heard);
      InDigitOnce(c, d, before, k, a, start, heard);
    }
  }

  lemma {:induction false} InDigitOnce(
    c: Setup, d: Detector, before: Detector, k: Digit, a: Arrival, start: nat, heard: nat)
    requires CarriesOn(c, d, before, k, a, start, heard)
    ensures OnceAtMost(Hear(c, d, a), before, k, heard + 1)
  {
    hide Hear, BelongsTo, IsEnd, Reported, Overtaken, Late, Sane, Place;
    if Overtaken(d, a.packet.number, k.timestamp) {
      LetThrough(c, d, before, k, a, start, heard);
      LongerHeard(d, before, k, start, heard, heard + 1);
    } else if Late(c, start, a.now) {
      LatePacket(c, d, before, k, a, start, heard);
      assert ReportOf(k, UnendedReport(k, Place(k, d.prevNumber)));
    } else if IsEnd(a.packet) {
      EndOfDigit(c, d, before, k, a, start, heard);
    } else {
      NextUpdate(c, d, before, k, a, start, heard);
    }
  }

  lemma {:induction false} MoreHeard(d: Detector, before: Detector, k: Digit, report: Detected, m: nat, n: nat)
    requires Reported(d, before, k, report, m) && m <= n
    ensures Reported(d, before, k, report, n)
  {
  }

  lemma {:induction false} LongerHeard(d: Detector, before: Detector, k: Digit, start: nat, m: nat, n: nat)
    requires InDigit(d, before, k, start, m) && m <= n
    ensures InDigit(d, before, k, start, n)
  {
  }

  lemma {:induction false} OnceAfter(c: Setup, d: Detector, k: Digit, arrivals: seq<Arrival>)
    requires OneDigit(c, k, arrivals) && Idle(d) && Audible(d, k.timestamp) && |arrivals| <= SANITY_LIMIT + 2
    ensures OnceAtMost(HearAll(c, d, arrivals), d, k, |arrivals|)
  {
    hide Hear, BelongsTo, InDigit, Reported;
    if arrivals == [] {
    } else {
      var earlier := arrivals[..|arrivals| - 1];
      OnceAfter(c, d, k, earlier);
      OnceStep(c, HearAll(c, d, earlier), d, k, arrivals[|arrivals| - 1], |earlier|);
    }
  }

  /** Whatever arrives of a digit, in whatever order and however late, it is reported
      at most once: with the duration of its END, or with that of an update. */
  lemma {:induction false} ReportedAtMostOnce(c: Setup, d: Detector, k: Digit, arrivals: seq<Arrival>)
    requires OneDigit(c, k, arrivals) && Idle(d) && Audible(d, k.timestamp) && |arrivals| <= SANITY_LIMIT + 2
    ensures var q := HearAll(c, d, arrivals).queue;
      q == d.queue || exists report :: ReportOf(k, report) && q == d.queue + [report]
  {
    OnceAfter(c, d, k, arrivals);
  }

  /** An END arrives, and up to it no arrival is later than the detector's
      timeout after an earlier one. */
  ghost predicate Prompt(c: Setup, arrivals: seq<Arrival>, j: nat) {
    && j < |arrivals| && IsEnd(arrivals[j].packet)
    && forall i, l :: 0 <= i < l <= j ==> arrivals[l].now <= arrivals[i].now + c.endTimeoutMs
  }

  /** After `n` arrivals: before the first END the digit is at most in progress,
      from then on it has been reported once. */
  ghost predicate Phase(d: Detector, before: Detector, k: Digit, arrivals: seq<Arrival>, n: nat)
    requires n <= |arrivals|
  {
    if exists i :: 0 <= i < n && IsEnd(arrivals[i].packet) then Finished(d, before, k, n)
    else
      || d == before
      || (Clear(before.lastEndTs, k.timestamp) && exists i :: 0 <= i < n && InDigit(d, before, k, arrivals[i].now, n))
  }

  lemma {:induction false} InTime(c: Setup, start: nat, now: nat)
    requires now <= start + c.endTimeoutMs
    ensures !Late(c, start, now)
  {
  }

  /** The digit is in progress, begun with arrival `i`. */
  lemma {:induction false} StepInDigit(
    c: Setup, d: Detector, before: Detector, k: Digit, arrivals: seq<Arrival>, j: nat, n: nat, i: nat)
    requires OneDigit(c, k, arrivals) && Prompt(c, arrivals, j)
    requires i < n <= j && n <= SANITY_LIMIT + 1 && Clear(before.lastEndTs, k.timestamp)
    requires InDigit(d, before, k, arrivals[i].now, n)
    ensures var d1 := Hear(c, d, arrivals[n]);
      if IsEnd(arrivals[n].packet) then Finished(d1, before, k, n + 1)
      else InDigit(d1, before, k, arrivals[i].now, n + 1)
  {
    hide Hear, InDigit, Finished, IsEnd, Clear, Late, Overtaken;
    InTime(c, arrivals[i].now, arrivals[n].now);
    if IsEnd(arrivals[n].packet) {
      EndOfDigit(c, d, before, k, arrivals[n], arrivals[i].now, n);
    } else {
      NextUpdate(c, d, before, k, arrivals[n], arrivals[i].now, n);
    }
  }

  lemma {:induction false} PhaseStep(
    c: Setup, d: Detector, before: Detector, k: Digit, arrivals: seq<Arrival>, j: nat, n: nat)
    requires OneDigit(c, k, arrivals) && Prompt(c, arrivals, j) && Idle(before) && Audible(before, k.timestamp)
    requires n < |arrivals| && n <= SANITY_LIMIT + 1 && Phase(d, before, k, arrivals, n)
    ensures Phase(Hear(c, d, arrivals[n]), before, k, arrivals, n + 1)
  {
    hide Hear, BelongsTo, IsEnd, Place, Sane;
    var a := arrivals[n];
    if i :| 0 <= i < n && IsEnd(arrivals[i].packet) {
      AfterReport(c, d, before, k, a, DigitReport(k), n);
    } else if i :| 0 <= i < n && InDigit(d, before, k, arrivals[i].now, n) {
      StepInDigit(c, d, before, k, arrivals, j, n, i);
    } else if IsEnd(a.packet) {
      FirstEnd(c, before, k, a);
      MoreHeard(Hear(c, before, a), before, k, DigitReport(k), 1, n + 1);
    } else {
      FirstUpdate(c, before, k, a);
      if Clear(before.lastEndTs, k.timestamp) {
        LongerHeard(Hear(c, before, a), before, k, a.now, 1, n + 1);
      }
    }
  }

  lemma {:induction false} PhaseAfter(c: Setup, d: Detector, k: Digit, arrivals: seq<Arrival>, j: nat, n: nat)
    requires OneDigit(c, k, arrivals) && Prompt(c, arrivals, j) && Idle(d) && Audible(d, k.timestamp)
    requires n <= |arrivals| <= SANITY_LIMIT + 2
    ensures Phase(HearAll(c, d, arrivals[..n]), d, k, arrivals, n)
  {
    hide Hear, InDigit, Finished, BelongsTo, IsEnd;
    if n == 0 {
    } else {
      PhaseAfter(c, d, k, arrivals, j, n - 1);
      assert arrivals[..n][..n - 1] == arrivals[..n - 1];
      PhaseStep(c, HearAll(c, d, arrivals[..n - 1]), d, k, arrivals, j, n - 1);
    }
  }

  lemma {:induction false} DigitHeard(c: Setup, d: Detector, k: Digit, arrivals: seq<Arrival>, j: nat)
    requires OneDigit(c, k, arrivals) && Prompt(c, arrivals, j) && Idle(d) && Audible(d, k.timestamp)
    requires |arrivals| <= SANITY_LIMIT + 2
    ensures Finished(HearAll(c, d, arrivals), d, k, |arrivals|)
  {
    PhaseAfter(c, d, k, arrivals, j, |arrivals|);
    assert arrivals[..|arrivals|] == arrivals;
  }

  // ---------- a digit without END ----------

  /** Updates only, none later than the timeout after the first. */
  ghost predicate Unended(c: Setup, arrivals: seq<Arrival>) {
    && arrivals != []
    && forall i :: 0 <= i < |arrivals| ==>
         !IsEnd(arrivals[i].packet) && arrivals[i].now <= arrivals[0].now + c.endTimeoutMs
  }

  /** The number of the last update let through. Zero stands for "none". */
  function Foremost(arrivals: seq<Arrival>): u16 {
    if arrivals == [] then 0
    else
      var so, number := Foremost(arrivals[..|arrivals| - 1]), arrivals[|arrivals| - 1].packet.number;
      if so != 0 && (Sub16(number, so) == 0 || Sub16(number, so) > 0x8000) then so else number
  }

  lemma {:induction false} ForemostArrived(c: Setup, k: Digit, arrivals: seq<Arrival>)
    requires OneDigit(c, k, arrivals) && arrivals != []
    requires forall i :: 0 <= i < |arrivals| ==> !IsEnd(arrivals[i].packet)
    ensures exists i :: 0 <= i < |arrivals| && arrivals[i].packet.number == Foremost(arrivals)
    ensures Place(k, Foremost(arrivals)) < |k.updates|
  {
    hide Place, Parse;
    var n := |arrivals| - 1;
    assert BelongsTo(arrivals[n].packet, k) && !IsEnd(arrivals[n].packet);
    if n > 0 {
      ForemostArrived(c, k, arrivals[..n]);
      var i :| 0 <= i < n && arrivals[..n][i].packet.number == Foremost(arrivals[..n]);
      assert arrivals[i].packet.number == Foremost(arrivals[..n]);
    }
    assert Foremost(arrivals) == Foremost(arrivals[..n]) || Foremost(arrivals) == arrivals[n].packet.number;
  }

  /** Unless the digit's numbers include 0, it is the greatest that arrived. */
  lemma {:induction false} ForemostIsGreatest(c: Setup, k: Digit, arrivals: seq<Arrival>)
    requires OneDigit(c, k, arrivals) && Place(k, 0) > |k.updates|
    requires forall i :: 0 <= i < |arrivals| ==> !IsEnd(arrivals[i].packet)
    ensures forall i :: 0 <= i < |arrivals| ==> Place(k, arrivals[i].packet.number) <= Place(k, Foremost(arrivals))
  {
    hide Place, Parse;
    if arrivals == [] {
    } else {
      var earlier, last := arrivals[..|arrivals| - 1], arrivals[|arrivals| - 1].packet;
      assert BelongsTo(last, k) && !IsEnd(last);
      if earlier != [] {
        ForemostIsGreatest(c, k, earlier);
        ForemostArrived(c, k, earlier);
        OrderOfPlaces(k, Foremost(earlier), last.number);
      }
    }
  }

  lemma {:induction false} OrderOfPlaces(k: Digit, a: u16, b: u16)
    requires Place(k, a) < 0x8000 && Place(k, b) < 0x8000
    ensures Sub16(b, a) == 0 || Sub16(b, a) > 0x8000 <==> Place(k, b) <= Place(k, a)
  {
  }

  lemma {:induction false} UnendedHeard(c: Setup, d: Detector, k: Digit, arrivals: seq<Arrival>)
    requires OneDigit(c, k, arrivals) && Unended(c, arrivals) && Idle(d) && Audible(d, k.timestamp)
    requires Clear(d.lastEndTs, k.timestamp) && |arrivals| <= SANITY_LIMIT + 2
    ensures var t := HearAll(c, d, arrivals);
      InDigit(t, d, k, arrivals[0].now, |arrivals|) && t.prevNumber == Foremost(arrivals)
  {
    hide Hear, BelongsTo, IsEnd, Place, Sane, Clear, Late;
    var earlier, a := arrivals[..|arrivals| - 1], arrivals[|arrivals| - 1];
    if earlier == [] {
      FirstUpdate(c, d, k, a);
      assert HearAll(c, d, earlier) == d;
    } else {
      UnendedHeard(c, d, k, earlier);
      InTime(c, arrivals[0].now, a.now);
      NextUpdate(c, HearAll(c, d, earlier), d, k, a, arrivals[0].now, |earlier|);
    }
  }

  /** A detector in the middle of a digit, with that digit completed. */
  function Settled(d: Detector): Detector {
    if d.current.Some? then ForceComplete(d) else d
  }

  /** The first packet of a further digit completes the one in progress. */
  lemma {:induction false} NextDigitCompletes(c: Setup, d: Detector, k: Digit, a: Arrival)
    requires c.expectedPt == k.pt && BelongsTo(a.packet, k) && d.current.Some? && d.digitTs == d.startedTs
    requires k.timestamp != d.startedTs && Clear(d.lastEndTs, k.timestamp) && Clear(d.startedTs, k.timestamp)
    ensures Hear(c, d, a) == Hear(c, Settled(d), a)
  {
    hide Parse, Place, DurationAt, Measure, ToChar;
  }

  lemma {:induction false} NextDigitSettles(c: Setup, d: Detector, k: Digit, arrivals: seq<Arrival>)
    requires c.expectedPt == k.pt && d.current.Some? && d.digitTs == d.startedTs && arrivals != []
    requires forall i :: 0 <= i < |arrivals| ==> BelongsTo(arrivals[i].packet, k)
    requires k.timestamp != d.startedTs && Clear(d.lastEndTs, k.timestamp) && Clear(d.startedTs, k.timestamp)
    ensures HearAll(c, d, arrivals) == HearAll(c, Settled(d), arrivals)
  {
    hide Hear, Settled, BelongsTo, Clear;
    var earlier := arrivals[..|arrivals| - 1];
    if earlier == [] {
      NextDigitCompletes(c, d, k, arrivals[0]);
      assert HearAll(c, d, earlier) == d && HearAll(c, Settled(d), earlier) == Settled(d);
    } else {
      NextDigitSettles(c, d, k, earlier);
    }
  }

  // ---------- a digit that is missed ----------

  predicate Deaf(d: Detector, before: Detector, k: Digit, heard: nat) {
    && d.current.None? && d.digitTs == d.startedTs == k.timestamp
    && (d.flip == 0 || (d.flip == 0xFFFF && d.lastDuration < FLIP_THRESHOLD))
    && d.sanity <= before.sanity + heard
    && d.queue == before.queue
  }

  lemma {:induction false} DeafStep(c: Setup, d: Detector, before: Detector, k: Digit, a: Arrival, heard: nat)
    requires Sane(k) && Short(k) && c.expectedPt == k.pt && BelongsTo(a.packet, k)
    requires Deaf(d, before, k, heard) && before.sanity + heard <= SANITY_LIMIT
    ensures Deaf(Hear(c, d, a), before, k, heard + 1)
  {
  }

  lemma {:induction false} DigitMissed(c: Setup, d: Detector, k: Digit, arrivals: seq<Arrival>)
    requires OneDigit(c, k, arrivals) && Short(k) && Idle(d) && d.flip == 0 && !Audible(d, k.timestamp)
    requires d.sanity + |arrivals| <= SANITY_LIMIT + 1
    ensures HearAll(c, d, arrivals).queue == d.queue
    ensures if k.timestamp == d.startedTs then Deaf(HearAll(c, d, arrivals), d, k, |arrivals|)
            else HearAll(c, d, arrivals) == d
  {
    if arrivals == [] {
    } else {
      var earlier, a := arrivals[..|arrivals| - 1], arrivals[|arrivals| - 1];
      DigitMissed(c, d, k, earlier);
      if k.timestamp == d.startedTs {
        DeafStep(c, HearAll(c, d, earlier), d, k, a, |earlier|);
      }
    }
  }

  /** The detector reports a digit, once, exactly when it is audible. */
  lemma {:induction false} HeardIffAudible(c: Setup, d: Detector, k: Digit, arrivals: seq<Arrival>, j: nat)
    requires OneDigit(c, k, arrivals) && Short(k) && Prompt(c, arrivals, j) && Idle(d) && d.flip == 0
    requires d.sanity + |arrivals| <= SANITY_LIMIT + 1
    ensures HearAll(c, d, arrivals).queue == d.queue + if Audible(d, k.timestamp) then [DigitReport(k)] else []
  {
    if Audible(d, k.timestamp) {
      DigitHeard(c, d, k, arrivals, j);
    } else {
      DigitMissed(c, d, k, arrivals);
    }
  }

  // ---------- the sender's digits over the channel ----------

  /** `arrivals` are packets of the one digit that `s` made; loss, duplication and
      reordering leave any list of them. */
  ghost predicate Carries(
    s: Sender, digit: char, durationMs: u32, intervalMs: u32, number: u16, audioTs: u32, arrivals: seq<Arrival>)
    requires intervalMs > 0
  {
    var sent := GenerateDigit(s, digit, durationMs, intervalMs, number, audioTs);
    sent.Some? && forall i :: 0 <= i < |arrivals| ==> arrivals[i].packet in sent.value.packets
  }

  /** A digit of `q` steps from `number` on that cannot be mistaken: one that stays
      out of the wrap zone, or one whose numbers stop short of 0. */
  predicate Plain(step: nat, q: nat, number: u16) {
    Units(step, q) < FLIP_THRESHOLD || (UpdateCount(q) < 0x8000 && Sub16(0, number) > UpdateCount(q))
  }

  /** What is asked of a digit to be sent; the bounds are those of the schedule's
      closed form. */
  predicate Sendable(durationMs: u32, intervalMs: u32, number: u16)
    requires intervalMs > 0
  {
    var step, q := 8 * intervalMs, Quotient(durationMs, intervalMs);
    && Plain(step, q, number)
    && (Units(step, q) < FLIP_THRESHOLD || (intervalMs <= 8191 && 8 * durationMs + 2 * U16_MAX <= U32_MAX))
  }

  function SentDurations(step: nat, n: nat): (ds: seq<u16>)
    ensures |ds| == n
  {
    seq(n, i requires 0 <= i < n => Min(Units(step, i + 1), U16_MAX))
  }

  /** The digit that the packets of a schedule are. */
  function SentDigit(s: Sender, e: Event, step: nat, number: u16, audioTs: u32, q: nat): Digit {
    Digit(s.payloadType, number, audioTs, e, SentDurations(step, UpdateCount(q)), Min(Units(step, q), U16_MAX))
  }

  lemma {:induction false} UnitsAtLeast(step: nat, n: nat)
    requires step >= 8
    ensures Units(step, n) >= 8 * n
  {
    if n == 0 {
    } else {
      UnitsAtLeast(step, n - 1);
    }
  }

  lemma {:induction false} DurationsRise(step: nat, n: nat, q: nat)
    requires 1 <= n <= q
    ensures forall i, j :: 0 <= i <= j < n ==> SentDurations(step, n)[i] <= SentDurations(step, n)[j]
    ensures forall i :: 0 <= i < n ==> SentDurations(step, n)[i] <= Min(Units(step, q), U16_MAX)
  {
    forall i, j | 0 <= i <= j < n
      ensures SentDurations(step, n)[i] <= SentDurations(step, n)[j] <= Min(Units(step, q), U16_MAX)
    {
      UnitsGrow(step, i + 1, j + 1);
      UnitsGrow(step, j + 1, q);
    }
  }

  lemma {:induction false} SentDigitIsSane(s: Sender, e: Event, step: nat, number: u16, audioTs: u32, q: nat)
    requires q >= 1 && step >= 8 && Plain(step, q, number)
    ensures Sane(SentDigit(s, e, step, number, audioTs, q))
  {
    hide SentDurations;
    UnitsAtLeast(step, q);
    DurationsRise(step, UpdateCount(q), q);
    SameNumber(number);
  }

  lemma {:induction false} Offset16(number: u16, i: nat)
    requires i <= 0x8000
    ensures Sub16(Low16(number + i), Low16(number)) == i
  {
  }

  lemma {:induction false} SameNumber(number: u16)
    ensures Low16(number) == number
  {
  }

  /** An update or an END built for a digit belongs to it. */
  lemma {:induction false} BuiltBelongs(s: Sender, k: Digit, i: nat, marker: bool, p: DtmfPacket)
    requires 0 <= k.base < 0x1_0000 && s.payloadType == k.pt && s.timestamp == k.timestamp
    requires i <= |k.updates| <= 0x8000
    requires p == Build(s, k.event, i == |k.updates|, DurationAt(k, i), marker, Low16(k.base + i))
    ensures BelongsTo(p, k) && Place(k, p.number) == i
  {
    hide Sub16, Low16, Parse, Serialize, DurationAt;
    SameNumber(k.base);
    Offset16(k.base, i);
    PayloadRoundTrip(Payload(k.event, i == |k.updates|, DEFAULT_VOLUME, DurationAt(k, i)));
  }

  /** Every packet of the schedule carries what the detector relies on. */
  lemma {:induction false} ScheduleBelongs(
    s: Sender, e: Event, step: nat, number: u16, audioTs: u32, q: nat, p: DtmfPacket)
    requires UpdateCount(q) <= 0x8000 && p in Schedule(s, e, audioTs, step, number, q)
    ensures BelongsTo(p, SentDigit(s, e, step, number, audioTs, q))
  {
    hide Build, BelongsTo, Low16, Place;
    var n, s1 := UpdateCount(q), s.(timestamp := audioTs);
    var k := SentDigit(s, e, step, number, audioTs, q);
    if p in Updates(s, e, audioTs, step, number, n) {
      var i :| 0 <= i < n && p == Update(s, e, audioTs, step, number, i);
      BuiltBelongs(s1, k, i, i == 0, p);
    } else {
      BuiltBelongs(s1, k, n, false, p);
    }
  }

  lemma {:induction false} ScheduleCarried(
    s: Sender, e: Event, step: nat, number: u16, audioTs: u32, q: nat, arrivals: seq<Arrival>, c: Setup)
    requires q >= 1 && step >= 8 && Plain(step, q, number) && c.expectedPt == s.payloadType
    requires forall i :: 0 <= i < |arrivals| ==> arrivals[i].packet in Schedule(s, e, audioTs, step, number, q)
    ensures OneDigit(c, SentDigit(s, e, step, number, audioTs, q), arrivals)
  {
    hide BelongsTo, Schedule, Place;
    SentDigitIsSane(s, e, step, number, audioTs, q);
    forall i | 0 <= i < |arrivals|
      ensures BelongsTo(arrivals[i].packet, SentDigit(s, e, step, number, audioTs, q))
    {
      ScheduleBelongs(s, e, step, number, audioTs, q, arrivals[i].packet);
    }
  }

  /** The closed form of the schedule applies to what is sendable. */
  lemma {:induction false} SendableFits(durationMs: u32, intervalMs: u32, number: u16)
    requires intervalMs >= 1 && Sendable(durationMs, intervalMs, number)
    ensures Quotient(durationMs, intervalMs) >= 1
    ensures intervalMs <= 8191 && 8 * durationMs + 2 * U16_MAX <= U32_MAX
  {
    hide Plain;
    var q := Quotient(durationMs, intervalMs);
    QuotientScales(durationMs, intervalMs);
    QuotientBounds(8 * durationMs, 8 * intervalMs);
    UnitsGrow(8 * intervalMs, 1, q);
    assert Units(8 * intervalMs, 1) == 8 * intervalMs;
  }

  /** The digit that a call sends. */
  function DigitOf(s: Sender, digit: char, durationMs: u32, intervalMs: u32, number: u16, audioTs: u32): Digit
    requires intervalMs > 0 && FromChar(digit).Some?
  {
    SentDigit(s, FromChar(digit).value, 8 * intervalMs, number, audioTs, Quotient(durationMs, intervalMs))
  }

  lemma {:induction false} SentDigitBelongs(
    s: Sender, digit: char, durationMs: u32, intervalMs: u32, number: u16, audioTs: u32, arrivals: seq<Arrival>,
    c: Setup)
    requires s.outDigit.None? && 1 <= intervalMs && c.expectedPt == s.payloadType
    requires Sendable(durationMs, intervalMs, number) && FromChar(digit).Some?
    requires Carries(s, digit, durationMs, intervalMs, number, audioTs, arrivals)
    ensures OneDigit(c, DigitOf(s, digit, durationMs, intervalMs, number, audioTs), arrivals)
  {
    hide Schedule, Plain, OneDigit, SentDigit;
    SendableFits(durationMs, intervalMs, number);
    ScheduleClosedForm(s, digit, durationMs, intervalMs, number, audioTs);
    ScheduleCarried(s, FromChar(digit).value, 8 * intervalMs, number, audioTs, Quotient(durationMs, intervalMs),
        arrivals, c);
  }

  lemma {:induction false} OnlyDigitsAreSent(
    s: Sender, digit: char, durationMs: u32, intervalMs: u32, number: u16, audioTs: u32, arrivals: seq<Arrival>)
    requires s.outDigit.None? && intervalMs > 0
    requires Carries(s, digit, durationMs, intervalMs, number, audioTs, arrivals)
    ensures FromChar(digit).Some?
  {
  }

  /** The duration reported for `n` intervals: at least 50 ms, and at most what 16
      bits of timestamp units hold. */
  function ReportedMs(intervalMs: u32, n: nat): nat {
    Max(Min(Units(intervalMs, n), 8191), MIN_DURATION_MS)
  }

  /** The report of a digit sent with this duration, of which an END arrives. */
  function SentReport(e: Event, durationMs: u32, intervalMs: u32): Detected
    requires intervalMs > 0
  {
    Detected(ToChar(e), e, ReportedMs(intervalMs, Quotient(durationMs, intervalMs)), true)
  }

  lemma {:induction false} EighthOf(step: nat, n: nat)
    ensures Min(Units(8 * step, n), U16_MAX) / 8 == Min(Units(step, n), 8191)
  {
    UnitsScale(8, step, n);
  }

  lemma {:induction false} ReportOfSent(
    s: Sender, digit: char, durationMs: u32, intervalMs: u32, number: u16, audioTs: u32)
    requires intervalMs > 0 && FromChar(digit).Some?
    ensures DigitReport(DigitOf(s, digit, durationMs, intervalMs, number, audioTs))
         == SentReport(FromChar(digit).value, durationMs, intervalMs)
  {
    hide Units, Quotient, SentDurations;
    EighthOf(intervalMs, Quotient(durationMs, intervalMs));
  }

  /** A digit over a lossy channel: whatever arrives of it, once an END does, a
      detector that is not in the middle of a digit reports that digit exactly
      once, with the duration its END states and at least 50 ms. */
  lemma {:induction false} DigitOverLossyChannel(
    s: Sender, digit: char, durationMs: u32, intervalMs: u32, number: u16, audioTs: u32, c: Setup, d: Detector,
    arrivals: seq<Arrival>, j: nat)
    requires s.outDigit.None? && 1 <= intervalMs && c.expectedPt == s.payloadType
    requires Sendable(durationMs, intervalMs, number)
    requires Carries(s, digit, durationMs, intervalMs, number, audioTs, arrivals) && Prompt(c, arrivals, j)
    requires Idle(d) && Audible(d, audioTs) && |arrivals| <= SANITY_LIMIT + 2
    ensures FromChar(digit).Some?
    ensures HearAll(c, d, arrivals).queue == d.queue + [SentReport(FromChar(digit).value, durationMs, intervalMs)]
  {
    hide Sendable, OneDigit, Prompt, Carries, HearAll, DigitReport, SentReport;
    OnlyDigitsAreSent(s, digit, durationMs, intervalMs, number, audioTs, arrivals);
    SentDigitBelongs(s, digit, durationMs, intervalMs, number, audioTs, arrivals, c);
    ReportOfSent(s, digit, durationMs, intervalMs, number, audioTs);
    DigitHeard(c, d, DigitOf(s, digit, durationMs, intervalMs, number, audioTs), arrivals, j);
  }

  /** A new detector has zero for "no digit yet", so it hears its first digit
      exactly when that digit's timestamp is not zero. */
  lemma {:induction false} FirstDigitHeardIffNonZero(c: Setup, k: Digit, arrivals: seq<Arrival>, j: nat)
    requires OneDigit(c, k, arrivals) && Short(k) && Prompt(c, arrivals, j) && |arrivals| <= SANITY_LIMIT + 1
    ensures HearAll(c, Fresh(), arrivals).queue == if k.timestamp != 0 then [DigitReport(k)] else []
  {
    HeardIffAudible(c, Fresh(), k, arrivals, j);
  }

  // ---------- a long digit that is not told right ----------

  /** Packet `i` of a long digit whose second update has number 0. */
  function Wrapped(i: nat): Arrival {
    var duration: u16 := if i == 0 then 0xF000 else if i == 1 then 0xFD00 else 0xFE00;
    Arrival(DtmfPacket(101, Low16(0xFFFF + i), 1000, 0, i == 0, Serialize(Payload(5, i == 2, 10, duration))), i)
  }

  /** After the first `n` packets of that digit, the second of them overtaken. */
  predicate Misled(d: Detector, n: nat, lastDuration: u16, flip: u32) {
    && d.current == Some(5) && d.digitTs == d.startedTs == d.firstTs == 1000 && d.lastEndTs == 0
    && d.startTime == Some(1) && d.queue == [] && d.sanity < n && d.lastDuration == lastDuration && d.flip == flip
  }

  lemma {:induction false} WrappedSteps(c: Setup, d: Detector)
    requires c.expectedPt == 101 && c.endTimeoutMs >= 2
    ensures var t := Hear(c, Fresh(), Wrapped(1)); Misled(t, 1, 0xFD00, 0) && t.prevNumber == 0
    ensures Misled(d, 1, 0xFD00, 0) && d.prevNumber == 0 ==>
      var t := Hear(c, d, Wrapped(0)); Misled(t, 2, 0xF000, 0xFFFF) && t.prevNumber == 0xFFFF
    ensures Misled(d, 2, 0xF000, 0xFFFF) && d.prevNumber == 0xFFFF ==>
      Hear(c, d, Wrapped(2)).queue == [Detected('5', 5, 16319, true)]
  {
    hide Serialize, Parse;
    PayloadRoundTrip(Payload(5, false, 10, 0xF000));
    PayloadRoundTrip(Payload(5, false, 10, 0xFD00));
    PayloadRoundTrip(Payload(5, true, 10, 0xFE00));
    assert Sub32(1000, 1000) == 0;
  }

  /** The numbers of a long digit matter: this one, in order but for its two updates,
      lasts 8128 ms, and is reported with 16319 ms. */
  lemma {:induction false} LongDigitExample(timeoutMs: u32)
    requires timeoutMs >= 2
    ensures HearAll(Setup(101, timeoutMs), Fresh(), [Wrapped(1), Wrapped(0), Wrapped(2)]).queue
         == [Detected('5', 5, 16319, true)]
  {
    hide Hear, Wrapped, Misled;
    var c, d := Setup(101, timeoutMs), Fresh();
    var one, two := [Wrapped(1)], [Wrapped(1), Wrapped(0)];
    assert two + [Wrapped(2)] == [Wrapped(1), Wrapped(0), Wrapped(2)];
    HearMore(c, d, [], Wrapped(1));
    HearMore(c, d, one, Wrapped(0));
    HearMore(c, d, two, Wrapped(2));
    assert [] + [Wrapped(1)] == one && one + [Wrapped(0)] == two;
    WrappedSteps(c, d);
    WrappedSteps(c, HearAll(c, d, one));
    WrappedSteps(c, HearAll(c, d, two));
  }

  lemma {:induction false} HearMore(c: Setup, d: Detector, arrivals: seq<Arrival>, a: Arrival)
    ensures HearAll(c, d, arrivals + [a]) == Hear(c, HearAll(c, d, arrivals), a)
  {
    assert (arrivals + [a])[..|arrivals|] == arrivals;
  }
}
