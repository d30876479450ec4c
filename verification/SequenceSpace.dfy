/** The sequence numbers and timestamps of everything an engine sends: audio,
    comfort noise and digits share one space (src/rtp/packet.rs and the sending
    methods of src/rtp/engine.rs). */
module SequenceSpace {
  import opened Words
  import opened DtmfPayload
  import opened DtmfSending

  datatype Wire = Wire(number: u16, timestamp: u32, marker: bool, isEnd: bool)

  /** `number` and `timestamp` are those of the next packet. */
  datatype State = State(number: u16, timestamp: u32, force: bool, inNoise: bool, sender: Sender)

  datatype Send =
    | Audio(samples: nat, marked: bool)
    | Noise
    | Digit(digit: char, durationMs: u32, intervalMs: u32)

  /** The packet builder does not advance by no samples, and digits have the
      bounds under which their counters do not wrap. */
  predicate Sendable(e: Send) {
    match e
    case Audio(samples, _) => 0 < samples <= U32_MAX
    case Noise => true
    case Digit(_, durationMs, intervalMs) =>
      0 < intervalMs && durationMs + intervalMs <= U32_MAX && 8 * durationMs + 2 * U16_MAX <= U32_MAX
  }

  predicate IsEnd(p: DtmfPacket) {
    |p.payload| >= 2 && p.payload[1] >= 0x80
  }

  function OnWire(p: DtmfPacket): Wire {
    Wire(p.number, p.timestamp, p.marker, IsEnd(p))
  }

  function AllOnWire(ps: seq<DtmfPacket>): (ws: seq<Wire>)
    ensures |ws| == |ps| && forall i :: 0 <= i < |ps| ==> ws[i] == OnWire(ps[i])
  {
    seq(|ps|, i requires 0 <= i < |ps| => OnWire(ps[i]))
  }

  function Step(s: State, e: Send): (State, seq<Wire>)
    requires Sendable(e)
  {
    match e
    case Audio(samples, marked) =>
      (s.(number := Low16(s.number + 1), timestamp := Low32(s.timestamp + samples), force := false, inNoise := false),
       [Wire(s.number, s.timestamp, marked || s.force || s.inNoise, false)])
    case Noise =>
      (s.(number := Low16(s.number + 1), inNoise := true), [Wire(s.number, s.timestamp, !s.inNoise, false)])
    case Digit(digit, durationMs, intervalMs) =>
      var r := GenerateDigit(s.sender, digit, durationMs, intervalMs, s.number, s.timestamp);
      if r.None? then (s, [])
      else (s.(number := r.value.number, sender := r.value.sender), AllOnWire(r.value.packets))
  }

  predicate AllSendable(sends: seq<Send>) {
    forall i :: 0 <= i < |sends| ==> Sendable(sends[i])
  }

  function After(s: State, sends: seq<Send>): State
    requires AllSendable(sends)
  {
    if sends == [] then s else Step(After(s, sends[..|sends| - 1]), sends[|sends| - 1]).0
  }

  /** Everything sent, in order. */
  function Sent(s: State, sends: seq<Send>): seq<Wire>
    requires AllSendable(sends)
  {
    if sends == [] then []
    else Sent(s, sends[..|sends| - 1]) + Step(After(s, sends[..|sends| - 1]), sends[|sends| - 1]).1
  }

  // ---------- the ledger: the same space, unbounded ----------

  /** The `index`-th distinct packet, `time` samples into the stream. */
  datatype Entry = Entry(index: nat, time: nat, isEnd: bool)

  predicate Rings(e: Send) {
    e.Digit? && FromChar(e.digit).Some?
  }

  /** The number of updates of a digit before its END. */
  function UpdatesOf(e: Send): nat
    requires e.Digit? && Sendable(e)
  {
    SentSoFar(Quotient(e.durationMs, e.intervalMs), Quotient(8 * e.durationMs, MsToTimestamp(e.intervalMs)))
  }

  function DigitEntries(index: nat, time: nat, updates: nat): seq<Entry> {
    var end := Entry(index + updates, time, true);
    seq(updates, i requires 0 <= i < updates => Entry(index + i, time, false)) + [end, end, end]
  }

  function EntriesOf(e: Send, index: nat, time: nat): seq<Entry>
    requires Sendable(e)
  {
    if Rings(e) then DigitEntries(index, time, UpdatesOf(e))
    else if e.Digit? then []
    else [Entry(index, time, false)]
  }

  /** How many distinct packets a send makes. */
  function Numbers(e: Send): nat
    requires Sendable(e)
  {
    if Rings(e) then UpdatesOf(e) + 1 else if e.Digit? then 0 else 1
  }

  function Count(sends: seq<Send>): nat
    requires AllSendable(sends)
  {
    if sends == [] then 0 else Count(sends[..|sends| - 1]) + Numbers(sends[|sends| - 1])
  }

  /** Only audio takes time. */
  function Time(sends: seq<Send>): nat {
    if sends == [] then 0
    else Time(sends[..|sends| - 1]) + if sends[|sends| - 1].Audio? then sends[|sends| - 1].samples else 0
  }

  function Ledger(sends: seq<Send>): seq<Entry>
    requires AllSendable(sends)
  {
    if sends == [] then []
    else
      var before := sends[..|sends| - 1];
      Ledger(before) + EntriesOf(sends[|sends| - 1], Count(before), Time(before))
  }

  predicate Shows(w: Wire, e: Entry, number: u16, timestamp: u32) {
    w.number == Low16(number + e.index) && w.timestamp == Low32(timestamp + e.time) && w.isEnd == e.isEnd
  }

  predicate AllShow(ws: seq<Wire>, es: seq<Entry>, number: u16, timestamp: u32) {
    |ws| == |es| && forall i :: 0 <= i < |ws| ==> Shows(ws[i], es[i], number, timestamp)
  }

  // ---------- the wire shows the ledger ----------

  lemma {:induction false} Further16(a: int, x: u16, k: int)
    requires x == Low16(a)
    ensures Low16(x + k) == Low16(a + k)
  {
  }

  lemma {:induction false} Further32(a: int, x: u32, k: int)
    requires x == Low32(a)
    ensures Low32(x + k) == Low32(a + k)
  {
  }

  lemma {:induction false} BuiltEnd(s: Sender, e: Event, isEnd: bool, duration: u16, marker: bool, number: u16)
    ensures IsEnd(Build(s, e, isEnd, duration, marker, number)) == isEnd
  {
  }

  lemma {:induction false} PlanShows(
    s: Sender, e: Event, ts: u32, step: nat, number: u16, n: nat, m: nat, first: u16, index: nat, start: u32,
    time: nat)
    requires number == Low16(first + index) && ts == Low32(start + time)
    ensures AllShow(AllOnWire(Plan(s, e, ts, step, number, n, m)), DigitEntries(index, time, n), first, start)
  {
    var ps, es := Plan(s, e, ts, step, number, n, m), DigitEntries(index, time, n);
    forall i | 0 <= i < |ps|
      ensures Shows(OnWire(ps[i]), es[i], first, start)
    {
      if i < n {
        Further16(first + index, number, i);
        BuiltEnd(s.(timestamp := ts), e, false, Min(Units(step, i + 1), U16_MAX), i == 0, Low16(number + i));
      } else {
        Further16(first + index, number, n);
        BuiltEnd(s.(timestamp := ts), e, true, Min(Units(step, m), U16_MAX), false, Low16(number + n));
      }
    }
  }

  ghost predicate InStep(s: State, t: State, sends: seq<Send>)
    requires AllSendable(sends)
  {
    t.sender.outDigit.None? && t.number == Low16(s.number + Count(sends))
        && t.timestamp == Low32(s.timestamp + Time(sends))
  }

  lemma {:induction false} DigitShows(t: State, e: Send, first: u16, index: nat, start: u32, time: nat)
    requires Sendable(e) && e.Digit? && t.sender.outDigit.None?
    requires t.number == Low16(first + index) && t.timestamp == Low32(start + time)
    ensures var (u, ws) := Step(t, e);
      && AllShow(ws, EntriesOf(e, index, time), first, start)
      && u.sender.outDigit.None? && u.number == Low16(first + index + Numbers(e)) && u.timestamp == t.timestamp
  {
    var event := FromChar(e.digit);
    if event.Some? {
      var q, m := Quotient(e.durationMs, e.intervalMs), Quotient(8 * e.durationMs, MsToTimestamp(e.intervalMs));
      GeneratedPlan(t.sender, e.digit, e.durationMs, e.intervalMs, t.number, t.timestamp);
      PlanShows(t.sender, event.value, t.timestamp, MsToTimestamp(e.intervalMs), t.number, SentSoFar(q, m),
          Reached(q, m),
                first, index, start, time);
      Further16(first + index, t.number, SentSoFar(q, m) + 1);
    }
  }

  lemma {:induction false} StepShows(t: State, e: Send, first: u16, index: nat, start: u32, time: nat)
    requires Sendable(e) && t.sender.outDigit.None?
    requires t.number == Low16(first + index) && t.timestamp == Low32(start + time)
    ensures var (u, ws) := Step(t, e);
      && AllShow(ws, EntriesOf(e, index, time), first, start)
      && u.sender.outDigit.None? && u.number == Low16(first + index + Numbers(e))
      && u.timestamp == Low32(start + time + if e.Audio? then e.samples else 0)
  {
    if e.Digit? {
      DigitShows(t, e, first, index, start, time);
    } else {
      Further16(first + index, t.number, 1);
      Further32(start + time, t.timestamp, if e.Audio? then e.samples else 0);
    }
  }

  lemma {:induction false} ShowsJoin(
    ws: seq<Wire>, es: seq<Entry>, more: seq<Wire>, further: seq<Entry>, number: u16, timestamp: u32)
    requires AllShow(ws, es, number, timestamp) && AllShow(more, further, number, timestamp)
    ensures AllShow(ws + more, es + further, number, timestamp)
  {
    hide Shows;
  }

  lemma {:induction false} NothingSent(s: State)
    ensures AllShow(Sent(s, []), Ledger([]), s.number, s.timestamp)
    ensures s.sender.outDigit.None? ==> InStep(s, After(s, []), [])
  {
  }

  /** Whatever is sent, one at a time, the wire shows the ledger. */
  lemma {:induction false} WireShowsLedger(s: State, sends: seq<Send>)
    requires AllSendable(sends) && s.sender.outDigit.None?
    ensures AllShow(Sent(s, sends), Ledger(sends), s.number, s.timestamp) && InStep(s, After(s, sends), sends)
  {
    hide Step, EntriesOf, Numbers, AllShow, Low16, Low32;
    if sends == [] {
      NothingSent(s);
    } else {
      var before, e := sends[..|sends| - 1], sends[|sends| - 1];
      var t := After(s, before);
      WireShowsLedger(s, before);
      StepShows(t, e, s.number, Count(before), s.timestamp, Time(before));
      ShowsJoin(Sent(s, before), Ledger(before), Step(t, e).1, EntriesOf(e, Count(before), Time(before)),
                s.number, s.timestamp);
    }
  }

  // ---------- the ledger is in order ----------

  /** Neighbours: the index moves on by one unless both are ENDs, and time does
      not go back. */
  predicate Follows(a: Entry, b: Entry) {
    b.index == a.index + (if a.isEnd && b.isEnd then 0 else 1) && a.time <= b.time
  }

  predicate Orderly(es: seq<Entry>) {
    forall k :: 0 <= k < |es| - 1 ==> Follows(es[k], es[k + 1])
  }

  /** A stretch of the ledger from index `low` at time `early` up to, not
      including, index `high`, and to time `late`. */
  predicate Stretch(es: seq<Entry>, low: nat, high: nat, early: nat, late: nat) {
    && Orderly(es) && (if es == [] then low == high else es[0].index == low && es[|es| - 1].index + 1 == high)
    && (es != [] ==> !es[0].isEnd && early <= es[0].time && es[|es| - 1].time <= late)
  }

  lemma {:induction false} UpdatesAtLeastOne(e: Send)
    requires e.Digit? && Sendable(e)
    ensures UpdatesOf(e) >= 1
  {
  }

  lemma {:induction false} DigitStretch(index: nat, time: nat, n: nat)
    requires n >= 1
    ensures Stretch(DigitEntries(index, time, n), index, index + n + 1, time, time)
  {
    var es := DigitEntries(index, time, n);
    forall k | 0 <= k < |es| - 1
      ensures Follows(es[k], es[k + 1])
    {
      assert es[k] == Entry(index + if k < n then k else n, time, k >= n);
      assert es[k + 1] == Entry(index + if k + 1 < n then k + 1 else n, time, k + 1 >= n);
    }
  }

  lemma {:induction false} StretchesJoin(
    a: seq<Entry>, b: seq<Entry>, low: nat, mid: nat, high: nat, early: nat, between: nat, late: nat)
    requires Stretch(a, low, mid, early, between) && Stretch(b, mid, high, between, late) && early <= between <= late
    ensures Stretch(a + b, low, high, early, late)
  {
    var es := a + b;
    forall k | 0 <= k < |es| - 1
      ensures Follows(es[k], es[k + 1])
    {
      if k == |a| - 1 {
        assert es[k] == a[k] && es[k + 1] == b[0];
      }
    }
  }

  lemma {:induction false} SendStretch(e: Send, index: nat, time: nat)
    requires Sendable(e)
    ensures Stretch(EntriesOf(e, index, time), index, index + Numbers(e), time, time)
  {
    if Rings(e) {
      UpdatesAtLeastOne(e);
      DigitStretch(index, time, UpdatesOf(e));
    }
  }

  lemma {:induction false} LedgerIsOrderly(sends: seq<Send>)
    requires AllSendable(sends)
    ensures Stretch(Ledger(sends), 0, Count(sends), 0, Time(sends))
  {
    if sends == [] {
    } else {
      var before, e := sends[..|sends| - 1], sends[|sends| - 1];
      LedgerIsOrderly(before);
      SendStretch(e, Count(before), Time(before));
      StretchesJoin(Ledger(before), EntriesOf(e, Count(before), Time(before)), 0, Count(before), Count(sends),
                    0, Time(before), Time(before));
    }
  }

  /** One sequence space: over any series of sends each packet has the number
      after the one before, except for the copies of an END, which repeat it;
      and its timestamp is the one before, moved on by the audio sent between. */
  lemma {:induction false} OneSequenceSpace(s: State, sends: seq<Send>, k: nat)
    requires AllSendable(sends) && s.sender.outDigit.None? && k + 1 < |Sent(s, sends)|
    ensures |Ledger(sends)| == |Sent(s, sends)| && Ledger(sends)[k].time <= Ledger(sends)[k + 1].time
    ensures var a, b := Sent(s, sends)[k], Sent(s, sends)[k + 1];
      && b.number == (if a.isEnd && b.isEnd then a.number else Low16(a.number + 1))
      && b.timestamp == Low32(a.timestamp + (Ledger(sends)[k + 1].time - Ledger(sends)[k].time))
  {
    WireShowsLedger(s, sends);
    LedgerIsOrderly(sends);
    var x, y := Ledger(sends)[k], Ledger(sends)[k + 1];
    assert Follows(x, y);
    Neighbours(Sent(s, sends)[k], Sent(s, sends)[k + 1], x, y, s.number, s.timestamp);
  }

  lemma {:induction false} Neighbours(a: Wire, b: Wire, x: Entry, y: Entry, number: u16, timestamp: u32)
    requires Shows(a, x, number, timestamp) && Shows(b, y, number, timestamp) && Follows(x, y)
    ensures b.number == (if a.isEnd && b.isEnd then a.number else Low16(a.number + 1))
    ensures b.timestamp == Low32(a.timestamp + (y.time - x.time))
  {
    Further16(number + x.index, a.number, 1);
    Further32(timestamp + x.time, a.timestamp, y.time - x.time);
  }

  // ---------- markers ----------

  /** Has comfort noise gone out since the last audio? */
  predicate NoiseSinceAudio(sends: seq<Send>) {
    sends != [] && (sends[|sends| - 1].Noise? || (!sends[|sends| - 1].Audio? && NoiseSinceAudio(sends[..|sends| - 1])))
  }

  predicate AudioSent(sends: seq<Send>) {
    exists i :: 0 <= i < |sends| && sends[i].Audio?
  }

  /** Audio carries the marker when the caller asks for it, when it is the first
      and when it follows comfort noise; noise when it opens a silence. */
  lemma {:induction false} MarkersExactly(s: State, sends: seq<Send>)
    requires AllSendable(sends) && s.force && !s.inNoise
    ensures var t := After(s, sends); t.force == !AudioSent(sends) && t.inNoise == NoiseSinceAudio(sends)
    ensures var t := After(s, sends);
      && (forall n, marked :: 0 < n <= U32_MAX ==>
            Step(t, Audio(n, marked)).1[0].marker == (marked || !AudioSent(sends) || NoiseSinceAudio(sends)))
      && Step(t, Noise).1[0].marker == !NoiseSinceAudio(sends)
  {
    if sends == [] {
    } else {
      var before, e := sends[..|sends| - 1], sends[|sends| - 1];
      MarkersExactly(s, before);
      assert AudioSent(sends) == (AudioSent(before) || e.Audio?) by {
        assert forall i :: 0 <= i < |before| ==> before[i] == sends[i];
      }
    }
  }
}
