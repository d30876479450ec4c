/** The receiver's side of an RTCP session (src/rtp/rtcp.rs): the wrapping
    sequence tracker of appendix A.1 of RFC 3550, the window of the last 256
    loss events with its burst density, and the loss of appendix A.3. */
module RtcpReceive {
  import opened Words
  import opened RtcpCodec

  const MAX_DROPOUT := 3000
  const MAX_MISORDER := 100
  const WINDOW := 256

  // ---------- the sequence tracker ----------

  datatype Tracker = Tracker(
    received: u32, expected: u32, highestExt: u32, cycles: nat, highest: u16, started: bool, base: u32,
    lastReceived: u32, lastExpected: u32)

  function NoPackets(): Tracker {
    Tracker(0, 0, 0, 0, 0, false, 0, 0, 0)
  }

  function Restarted(t: Tracker, number: u16): Tracker {
    t.(base := number, highest := number, cycles := 0, started := true)
  }

  /** The three branches of the validation, before the derived counters. */
  function Validate(t: Tracker, number: u16): Tracker {
    var delta := Sub16(number, t.highest);
    if !t.started then Restarted(t, number)
    else if delta < MAX_DROPOUT then
      t.(cycles := if number < t.highest then t.cycles + 1 else t.cycles, highest := number)
    else if delta <= 0xFFFF - MAX_MISORDER then
      Restarted(t, number).(received := 1, lastReceived := 0, lastExpected := 0)
    else t
  }

  function Extended(cycles: nat, highest: u16): u32 {
    Low16(cycles) * 0x1_0000 + highest
  }

  function Derive(t: Tracker): Tracker {
    var ext := Extended(t.cycles, t.highest);
    t.(highestExt := ext, expected := Low32(SaturatingSub(ext, t.base) + 1))
  }

  function Track(t: Tracker, number: u16): Tracker {
    Derive(Validate(t.(received := Low32(t.received + 1)), number))
  }

  /** A packet too far from the highest starts the count again, as a first
      packet would. */
  lemma {:induction false} FarJumpRestarts(t: Tracker, number: u16)
    requires t.started && MAX_DROPOUT <= Sub16(number, t.highest) <= 0xFFFF - MAX_MISORDER
    ensures Track(t, number) == FirstTracker(number)
  {
    hide Derive, Sub16, Low32;
    var again := Validate(t.(received := Low32(t.received + 1)), number);
    DerivedFirst(again, number);
  }

  /** The tracker after one packet, whatever went before being forgotten. */
  function FirstTracker(number: u16): Tracker {
    Tracker(1, 1, number, 0, number, true, number, 0, 0)
  }

  lemma {:induction false} DerivedFirst(t: Tracker, number: u16)
    requires t.received == 1 && t.cycles == 0 && t.highest == t.base == number && t.started
    requires t.lastReceived == t.lastExpected == 0
    ensures Derive(t) == FirstTracker(number)
  {
    assert Extended(0, number) == number && Low32(SaturatingSub(number, number) + 1) == 1;
  }

  /** It is what a new tracker becomes with its first packet. */
  lemma {:induction false} FirstPacketTracked(number: u16)
    ensures Track(NoPackets(), number) == FirstTracker(number)
  {
    hide Derive;
    DerivedFirst(NoPackets().(received := 1, base := number, highest := number, started := true), number);
  }

  /** Packets by their unbounded indices, the first being `indices[0]`. */
  function TrackAll(indices: seq<int>): Tracker {
    if indices == [] then NoPackets()
    else Track(TrackAll(indices[..|indices| - 1]), Low16(indices[|indices| - 1]))
  }

  function Highest(indices: seq<int>): int
    requires indices != []
  {
    if |indices| == 1 then indices[0] else Max(Highest(indices[..|indices| - 1]), indices[|indices| - 1])
  }

  /** No index is more than 2999 ahead of, or 100 behind, the highest before it. */
  predicate Steady(indices: seq<int>) {
    |indices| <= 1 ||
    (Steady(indices[..|indices| - 1])
     && var h := Highest(indices[..|indices| - 1]);
       h - MAX_MISORDER <= indices[|indices| - 1] < h + MAX_DROPOUT)
  }

  /** The cycle count and the highest number together are the highest index,
      counted from the start of the first packet's cycle. */
  ghost predicate Follows(t: Tracker, first: int, highest: int, received: nat) {
    && t.started && t.base == Low16(first) && t.highest == Low16(highest)
    && first <= highest && 0x1_0000 * t.cycles + t.highest == highest - (first - Low16(first))
    && t.received == Low32(received)
    && t.highestExt == Extended(t.cycles, t.highest)
    && t.expected == Low32(SaturatingSub(t.highestExt, t.base) + 1)
  }

  lemma {:induction false} NextCycle(high: int, i: int)
    requires high <= i < high + MAX_DROPOUT
    ensures Sub16(Low16(i), Low16(high)) == i - high
    ensures Low16(i) - Low16(high) == i - high - (if Low16(i) < Low16(high) then 0x1_0000 else 0)
  {
    var a, b := high / 0x1_0000, i / 0x1_0000;
    assert high == 0x1_0000 * a + Low16(high) && i == 0x1_0000 * b + Low16(i);
    assert b == a || b == a + 1;
  }

  lemma {:induction false} BehindIsFar(high: int, i: int)
    requires high - MAX_MISORDER <= i < high
    ensures Sub16(Low16(i), Low16(high)) > 0xFFFF - MAX_MISORDER
  {
    var a, b := high / 0x1_0000, i / 0x1_0000;
    assert high == 0x1_0000 * a + Low16(high) && i == 0x1_0000 * b + Low16(i);
    assert b == a || b == a - 1;
  }

  lemma {:induction false} TrackFollows(t: Tracker, first: int, high: int, received: nat, i: int)
    requires Follows(t, first, high, received) && high - MAX_MISORDER <= i < high + MAX_DROPOUT
    requires NumbersTell(high, i)
    ensures Follows(Track(t, Low16(i)), first, Max(high, i), received + 1)
  {
  }

  /** What the numbers of two indices say of their distance. */
  predicate NumbersTell(high: int, i: int) {
    if i < high then Sub16(Low16(i), Low16(high)) > 0xFFFF - MAX_MISORDER
    else
      && Sub16(Low16(i), Low16(high)) == i - high
      && Low16(i) - Low16(high) == i - high - (if Low16(i) < Low16(high) then 0x1_0000 else 0)
  }

  lemma {:induction false} NumbersDoTell(high: int, i: int)
    requires high - MAX_MISORDER <= i < high + MAX_DROPOUT
    ensures NumbersTell(high, i)
  {
    if i < high {
      BehindIsFar(high, i);
    } else {
      NextCycle(high, i);
    }
  }

  lemma {:induction false} FirstFollows(i: int)
    ensures Follows(Track(NoPackets(), Low16(i)), i, i, 1)
  {
  }

  /** The tracker refines the unbounded indices: after any steady run it holds
      the highest of them, in cycles and low bits. */
  lemma {:induction false} TrackerRefines(indices: seq<int>)
    requires indices != [] && Steady(indices)
    ensures Follows(TrackAll(indices), indices[0], Highest(indices), |indices|)
  {
    hide Track, Follows;
    var before, i := indices[..|indices| - 1], indices[|indices| - 1];
    if before == [] {
      FirstFollows(i);
    } else {
      TrackerRefines(before);
      NumbersDoTell(Highest(before), i);
      TrackFollows(TrackAll(before), before[0], Highest(before), |before|, i);
    }
  }

  /** Across any number of wraps: while the highest index, counted from the
      start of the first packet's cycle, fits 32 bits, the extended number is
      that index and the expected packets are all from the first to the highest. */
  lemma {:induction false} ExpectedPackets(indices: seq<int>)
    requires indices != [] && Steady(indices)
    requires Highest(indices) - (indices[0] - Low16(indices[0])) <= U32_MAX
    requires Highest(indices) - indices[0] < U32_MAX && |indices| <= U32_MAX
    ensures var t := TrackAll(indices);
      && t.highestExt == Highest(indices) - (indices[0] - Low16(indices[0]))
      && t.expected == Highest(indices) - indices[0] + 1
      && t.received == |indices|
  {
    TrackerRefines(indices);
    FittingCounts(TrackAll(indices), indices[0], Highest(indices), |indices|);
  }

  lemma {:induction false} FittingCounts(t: Tracker, first: int, high: int, received: nat)
    requires Follows(t, first, high, received) && received <= U32_MAX
    requires high - (first - t.base) <= U32_MAX && high - first < U32_MAX
    ensures t.highestExt == high - (first - t.base) && t.expected == high - first + 1 && t.received == received
  {
    assert 0 <= t.cycles < 0x1_0000;
    assert Low16(t.cycles) == t.cycles;
    assert Low32(received) == received;
    var e := high - first + 1;
    assert Low32(e) == e;
  }

  // ---------- loss events ----------

  function Repeat(b: bool, n: nat): (r: seq<bool>)
    ensures |r| == n && forall i :: 0 <= i < n ==> r[i] == b
  {
    seq(n, _ => b)
  }

  /** The loss events one packet causes: a lost one for each number of a forward
      gap, then a received one. */
  function Events(t: Tracker, number: u16): seq<bool> {
    if !t.started then [] else EventsForGap(Sub16(number, Low16(t.highest + 1)))
  }

  function EventsForGap(gap: u16): seq<bool> {
    if 0 < gap < MAX_DROPOUT then Repeat(false, gap) + [true] else [true]
  }

  function EventsOf(indices: seq<int>): seq<bool> {
    if indices == [] then []
    else EventsOf(indices[..|indices| - 1])
         + Events(TrackAll(indices[..|indices| - 1]), Low16(indices[|indices| - 1]))
  }

  function Losses(events: seq<bool>): nat {
    if events == [] then 0
    else Losses(events[..|events| - 1]) + if events[|events| - 1] then 0 else 1
  }

  /** How many packets after the first raised the highest index. */
  function Advances(indices: seq<int>): nat {
    if |indices| <= 1 then 0
    else Advances(indices[..|indices| - 1])
         + if indices[|indices| - 1] > Highest(indices[..|indices| - 1]) then 1 else 0
  }

  lemma {:induction false} LossesAppend(a: seq<bool>, b: seq<bool>)
    ensures Losses(a + b) == Losses(a) + Losses(b)
  {
    if b == [] {
      assert a + b == a;
    } else {
      var b1 := b[..|b| - 1];
      assert (a + b)[..|a + b| - 1] == a + b1;
      LossesAppend(a, b1);
    }
  }

  lemma {:induction false} LossesRepeat(n: nat)
    ensures Losses(Repeat(false, n)) == n
  {
    if n == 0 {
    } else {
      assert Repeat(false, n)[..n - 1] == Repeat(false, n - 1);
      LossesRepeat(n - 1);
    }
  }

  lemma {:induction false} GapOf(high: int, i: int)
    requires high - MAX_MISORDER <= i < high + MAX_DROPOUT
    ensures var gap := Sub16(Low16(i), Low16(Low16(high) + 1));
      if i > high then gap == i - high - 1 else gap >= MAX_DROPOUT
  {
    var a, b, c := high / 0x1_0000, i / 0x1_0000, (high + 1) / 0x1_0000;
    assert high == 0x1_0000 * a + Low16(high) && i == 0x1_0000 * b + Low16(i)
        && high + 1 == 0x1_0000 * c + Low16(high + 1);
    assert Low16(Low16(high) + 1) == Low16(high + 1);
    assert i > high ==> b == c || b == c + 1;
    assert i <= high ==> b == c || b == c - 1;
  }

  lemma {:induction false} LossesForGap(gap: u16)
    ensures Losses(EventsForGap(gap)) == if gap < MAX_DROPOUT then gap else 0
  {
    assert Losses([true][..0]) == 0;
    LossesAppend(Repeat(false, gap), [true]);
    LossesRepeat(gap);
  }

  lemma {:induction false} EventLosses(t: Tracker, high: int, i: int)
    requires t.started && t.highest == Low16(high) && high - MAX_MISORDER <= i < high + MAX_DROPOUT
    ensures Losses(Events(t, Low16(i))) == if i > high then i - high - 1 else 0
  {
    GapOf(high, i);
    LossesForGap(Sub16(Low16(i), Low16(t.highest + 1)));
  }

  /** Every index the highest has jumped over is recorded as lost exactly once:
      the losses and the advancing packets add up to the distance travelled. */
  lemma {:induction false} LossesAccountForGaps(indices: seq<int>)
    requires indices != [] && Steady(indices)
    ensures Losses(EventsOf(indices)) + Advances(indices) == Highest(indices) - indices[0]
  {
    var before, i := indices[..|indices| - 1], indices[|indices| - 1];
    if |indices| == 1 {
      assert EventsOf(before) == [] && EventsOf(indices) == [] + [];
    } else {
      LossesAccountForGaps(before);
      TrackerRefines(before);
      EventLosses(TrackAll(before), Highest(before), i);
      LossesAppend(EventsOf(before), Events(TrackAll(before), Low16(i)));
    }
  }

  /** The events of each packet of a steady run, in order: one loss for every index it
      jumps over, then its own arrival; a late or repeated one only arrives. */
  lemma {:induction false} EventsInOrder(indices: seq<int>, i: int)
    requires indices != [] && Steady(indices + [i])
    ensures var missed := if i > Highest(indices) then i - Highest(indices) - 1 else 0;
      EventsOf(indices + [i]) == EventsOf(indices) + (Repeat(false, missed) + [true])
  {
    hide Track, Repeat;
    var all := indices + [i];
    assert all[..|indices|] == indices;
    TrackerRefines(indices);
    GapOf(Highest(indices), i);
    NothingRepeated();
  }

  lemma {:induction false} NothingRepeated()
    ensures Repeat(false, 0) + [true] == [true]
  {
  }

  // ---------- the window of recent events ----------

  /** `window` holds the last events, newest first, in its first `len` places. */
  ghost predicate Recent(window: seq<bool>, len: nat, events: seq<bool>) {
    && |window| == WINDOW && len == Min(|events|, WINDOW)
    && forall i :: 0 <= i < len ==> window[i] == events[|events| - 1 - i]
  }

  function Shifted(window: seq<bool>, event: bool): (r: seq<bool>)
    requires |window| == WINDOW
    ensures |r| == WINDOW
  {
    [event] + window[..WINDOW - 1]
  }

  lemma {:induction false} ShiftKeepsRecent(window: seq<bool>, len: nat, events: seq<bool>, event: bool)
    requires Recent(window, len, events)
    ensures Recent(Shifted(window, event), Min(len + 1, WINDOW), events + [event])
  {
  }

  // ---------- burst and gap density ----------

  datatype Counts = Counts(burstLost: nat, burstTotal: nat, gapLost: nat, gapTotal: nat)

  /** The burst scan from entry `i` on, newest entry first. */
  function Scan(w: seq<bool>, i: nat, inBurst: bool): Counts
    requires i <= |w|
    decreases |w| - i
  {
    if i == |w| then Counts(0, 0, 0, 0)
    else
      var goesOn := inBurst && i + 1 < |w| && !w[i + 1];
      var c := Scan(w, i + 1, !w[i] || goesOn);
      if !w[i] then c.(burstLost := c.burstLost + 1, burstTotal := c.burstTotal + 1)
      else if goesOn then c.(burstTotal := c.burstTotal + 1)
      else c.(gapTotal := c.gapTotal + 1)
  }

  function Density(lost: nat, total: nat): byte {
    if total > 0 then Min(lost * 256 / total, 255) else 0
  }

  /** Burst and gap density of a window of events. */
  function Densities(w: seq<bool>): (byte, byte) {
    if |w| < 2 then (0, 0)
    else
      var c := Scan(w, 0, false);
      (Density(c.burstLost, c.burstTotal), Density(c.gapLost, c.gapTotal))
  }

  function LossesFrom(w: seq<bool>, i: nat): nat
    requires i <= |w|
    decreases |w| - i
  {
    if i == |w| then 0 else (if w[i] then 0 else 1) + LossesFrom(w, i + 1)
  }

  /** Bursts and gaps divide the window; the burst losses are all its losses,
      and at least half of what bursts contain; gaps contain none. */
  lemma {:induction false} ScanCounts(w: seq<bool>, i: nat, inBurst: bool)
    requires i <= |w|
    ensures var c := Scan(w, i, inBurst);
      && c.burstTotal + c.gapTotal == |w| - i
      && c.burstLost == LossesFrom(w, i) && c.gapLost == 0
      && c.burstLost <= c.burstTotal <= 2 * c.burstLost
      && (i < |w| && !w[i] ==> c.burstTotal < 2 * c.burstLost)
    decreases |w| - i
  {
    if i == |w| {
    } else {
      ScanCounts(w, i + 1, !w[i] || (inBurst && i + 1 < |w| && !w[i + 1]));
    }
  }

  /** Is entry `i` part of a burst: lost, or alone between two that are lost? */
  predicate InBurst(w: seq<bool>, i: nat)
    requires i < |w|
  {
    !w[i] || (0 < i < |w| - 1 && !w[i - 1] && !w[i + 1])
  }

  function BurstSize(w: seq<bool>, i: nat): nat
    requires i <= |w|
    decreases |w| - i
  {
    if i == |w| then 0 else (if InBurst(w, i) then 1 else 0) + BurstSize(w, i + 1)
  }

  /** The scan finds exactly the bursts: what is lost, and single packets received
      between two losses. */
  lemma {:induction false} ScanFindsBursts(w: seq<bool>, i: nat)
    requires i <= |w|
    ensures var c := Scan(w, i, i > 0 && !w[i - 1]);
      c.burstTotal == BurstSize(w, i) && c.burstLost == LossesFrom(w, i)
    decreases |w| - i
  {
    if i < |w| {
      ScanFindsBursts(w, i + 1);
    }
  }

  /** A density is the share lost, in 256ths, rounded down; all is 255. */
  lemma {:induction false} DensityMeaning(lost: nat, total: nat)
    requires 0 < total && lost <= total
    ensures var d: int := Density(lost, total);
      d * total <= 256 * lost && (d == 255 || 256 * lost < (d + 1) * total)
    ensures lost == total ==> Density(lost, total) == 255
  {
    if lost > 0 {
      FractionBounds(lost, total);
    }
    if lost == total {
      DivAtLeast(lost * 256, total, 256);
    }
  }

  lemma {:induction false} MulMonotone(a: nat, b: nat, y: nat)
    requires a <= b
    ensures a * y <= b * y
  {
  }

  lemma {:induction false} MulBelow(a: nat, k: nat, y: nat)
    requires a < k
    ensures a * y + y <= k * y
  {
    MulMonotone(a + 1, k, y);
    assert (a + 1) * y == a * y + y;
  }

  lemma {:induction false} DivAtLeast(x: nat, y: nat, k: nat)
    requires y > 0 && x >= k * y
    ensures x / y >= k
  {
    if x / y < k {
      MulBelow(x / y, k, y);
    }
  }

  lemma {:induction false} HalfDensity(lost: nat, total: nat)
    requires 0 < total <= 2 * lost
    ensures Density(lost, total) >= 128
  {
    DivAtLeast(lost * 256, total, 128);
  }

  lemma {:induction false} SomeLoss(w: seq<bool>, i: nat)
    requires i <= |w|
    ensures LossesFrom(w, i) > 0 <==> exists j :: i <= j < |w| && !w[j]
    decreases |w| - i
  {
    if i == |w| {
    } else {
      SomeLoss(w, i + 1);
    }
  }

  /** With two or more events, the burst density is 0 exactly when no packet was
      lost, and otherwise at least 128 (half). */
  lemma {:induction false} BurstDensityMeaning(w: seq<bool>)
    requires |w| >= 2
    ensures Densities(w).0 == 0 <==> forall j :: 0 <= j < |w| ==> w[j]
    ensures Densities(w).0 != 0 ==> Densities(w).0 >= 128
  {
    ScanCounts(w, 0, false);
    SomeLoss(w, 0);
    var c := Scan(w, 0, false);
    if c.burstLost > 0 {
      HalfDensity(c.burstLost, c.burstTotal);
    }
  }

  /** The losses of gaps are never counted, so the gap density is always 0,
      although its description promises the fraction lost in gaps. */
  lemma {:induction false} GapDensityIsZero(w: seq<bool>)
    ensures Densities(w).1 == 0
  {
    ScanCounts(w, 0, false);
  }

  /** A single event has no density yet. */
  lemma {:induction false} OneEventIsTooFew(w: seq<bool>)
    requires |w| <= 1
    ensures Densities(w) == (0, 0)
  {
  }

  // ---------- the receiver's session ----------

  datatype Session = Session(
    remote: Option<u32>, tracker: Tracker, window: seq<bool>, windowLen: nat, burstDensity: byte, gapDensity: byte)

  predicate Valid(s: Session) {
    |s.window| == WINDOW && s.windowLen <= WINDOW
  }

  function NewSession(): (s: Session)
    ensures Valid(s)
  {
    Session(None, NoPackets(), Repeat(true, WINDOW), 0, 0, 0)
  }

  function RecordLoss(s: Session, event: bool): (r: Session)
    requires Valid(s)
    ensures Valid(r)
  {
    var w, n := Shifted(s.window, event), Min(s.windowLen + 1, WINDOW);
    s.(window := w, windowLen := n, burstDensity := Densities(w[..n]).0, gapDensity := Densities(w[..n]).1)
  }

  function RecordLosses(s: Session, events: seq<bool>): (r: Session)
    requires Valid(s)
    ensures Valid(r)
  {
    if events == [] then s
    else RecordLoss(RecordLosses(s, events[..|events| - 1]), events[|events| - 1])
  }

  /** A new source starts a new tracker, but not a new window. */
  function ForSource(s: Session, ssrc: u32): (r: Session)
    ensures r == s.(remote := Some(ssrc), tracker := r.tracker)
  {
    if s.remote.None? || s.remote == Some(ssrc) then s.(remote := Some(ssrc))
    else s.(remote := Some(ssrc), tracker := NoPackets())
  }

  function Receive(s: Session, ssrc: u32, number: u16): (r: Session)
    requires Valid(s)
    ensures Valid(r)
  {
    var s1 := ForSource(s, ssrc);
    RecordLosses(s1.(tracker := Track(s1.tracker, number)), Events(s1.tracker, number))
  }

  /** A packet of source `ssrc` with the sender's unbounded index. */
  datatype Arrival = Arrival(ssrc: u32, index: int)

  function ReceiveRun(s: Session, arrivals: seq<Arrival>): (r: Session)
    requires Valid(s)
    ensures Valid(r)
  {
    if arrivals == [] then s
    else
      var a := arrivals[|arrivals| - 1];
      Receive(ReceiveRun(s, arrivals[..|arrivals| - 1]), a.ssrc, Low16(a.index))
  }

  predicate SameSource(before: seq<Arrival>, a: Arrival) {
    before != [] && before[|before| - 1].ssrc == a.ssrc
  }

  /** The indices received since the source last changed. */
  function SinceChange(arrivals: seq<Arrival>): seq<int> {
    if arrivals == [] then []
    else
      var before, a := arrivals[..|arrivals| - 1], arrivals[|arrivals| - 1];
      (if SameSource(before, a) then SinceChange(before) else []) + [a.index]
  }

  /** The loss events of a run: each packet's, against what its source sent since
      the last change. */
  function RunEvents(arrivals: seq<Arrival>): seq<bool> {
    if arrivals == [] then []
    else
      var before, a := arrivals[..|arrivals| - 1], arrivals[|arrivals| - 1];
      RunEvents(before) + Events(TrackAll(if SameSource(before, a) then SinceChange(before) else []), Low16(a.index))
  }

  lemma {:induction false} RecordLossesKeeps(s: Session, events: seq<bool>, all: seq<bool>)
    requires Valid(s) && Recent(s.window, s.windowLen, all)
    ensures var r := RecordLosses(s, events);
      && r.remote == s.remote && r.tracker == s.tracker && Recent(r.window, r.windowLen, all + events)
      && (if events == [] then r == s
          else r.burstDensity == Densities(r.window[..r.windowLen]).0 && r.gapDensity == 0)
  {
    if events == [] {
      assert all + [] == all;
    } else {
      var before, e := events[..|events| - 1], events[|events| - 1];
      RecordLossesKeeps(s, before, all);
      var r := RecordLosses(s, before);
      ShiftKeepsRecent(r.window, r.windowLen, all + before, e);
      GapDensityIsZero(Shifted(r.window, e)[..Min(r.windowLen + 1, WINDOW)]);
      assert (all + before) + [e] == all + events;
    }
  }

  /** The session after a run of packets of any sources. */
  ghost predicate Reflects(s: Session, arrivals: seq<Arrival>) {
    && s.remote == (if arrivals == [] then None else Some(arrivals[|arrivals| - 1].ssrc))
    && s.tracker == TrackAll(SinceChange(arrivals))
    && Recent(s.window, s.windowLen, RunEvents(arrivals))
    && s.burstDensity == Densities(s.window[..s.windowLen]).0 && s.gapDensity == 0
  }

  lemma {:induction false} ReceiveReflects(s: Session, before: seq<Arrival>, a: Arrival)
    requires Valid(s) && Reflects(s, before)
    ensures Reflects(Receive(s, a.ssrc, Low16(a.index)), before + [a])
  {
    hide Densities, Events, Track;
    assert (before + [a])[..|before|] == before;
    var s1, number := ForSource(s, a.ssrc), Low16(a.index);
    var since := if SameSource(before, a) then SinceChange(before) else [];
    assert s1.tracker == TrackAll(since);
    assert (since + [a.index])[..|since|] == since;
    RecordLossesKeeps(s1.(tracker := Track(s1.tracker, number)), Events(s1.tracker, number), RunEvents(before));
  }

  lemma {:induction false} NothingReflected()
    ensures Reflects(NewSession(), [])
  {
    assert NewSession().window[..0] == [];
  }

  /** Over any run, whatever the sources: the window is the last 256 loss events,
      newest first, kept when the source changes; the burst density is that of the
      window; and the tracker counts from the last change of source. */
  lemma {:induction false} WindowHoldsLastEvents(arrivals: seq<Arrival>)
    ensures Reflects(ReceiveRun(NewSession(), arrivals), arrivals)
  {
    hide Receive, Reflects;
    if arrivals == [] {
      NothingReflected();
    } else {
      var before, a := arrivals[..|arrivals| - 1], arrivals[|arrivals| - 1];
      WindowHoldsLastEvents(before);
      ReceiveReflects(ReceiveRun(NewSession(), before), before, a);
      assert before + [a] == arrivals;
    }
  }

  function OfSource(ssrc: u32, indices: seq<int>): (r: seq<Arrival>)
    ensures |r| == |indices|
  {
    if indices == [] then []
    else OfSource(ssrc, indices[..|indices| - 1]) + [Arrival(ssrc, indices[|indices| - 1])]
  }

  lemma {:induction false} NextOfRun(before: seq<Arrival>, a: Arrival)
    ensures var since := if SameSource(before, a) then SinceChange(before) else [];
      && SinceChange(before + [a]) == since + [a.index]
      && RunEvents(before + [a]) == RunEvents(before) + Events(TrackAll(since), Low16(a.index))
  {
    hide Events, TrackAll;
    assert (before + [a])[..|before|] == before;
  }

  /** With one source the events and the tracker are those of all its packets. */
  lemma {:induction false} OneSource(ssrc: u32, indices: seq<int>)
    ensures var arrivals := OfSource(ssrc, indices);
      && SinceChange(arrivals) == indices && RunEvents(arrivals) == EventsOf(indices)
      && (arrivals != [] ==> arrivals[|arrivals| - 1].ssrc == ssrc)
  {
    hide Events, TrackAll, SinceChange, RunEvents;
    if indices == [] {
      NoneOfRun();
    } else {
      var before, i := indices[..|indices| - 1], indices[|indices| - 1];
      OneSource(ssrc, before);
      NextOfRun(OfSource(ssrc, before), Arrival(ssrc, i));
      NoneOfRun();
      assert SameSource(OfSource(ssrc, before), Arrival(ssrc, i)) <==> before != [];
      assert indices == before + [i];
    }
  }

  lemma {:induction false} NoneOfRun()
    ensures SinceChange([]) == [] && RunEvents([]) == [] && EventsOf([]) == []
  {
  }

  lemma {:induction false} OneSourceWindow(ssrc: u32, indices: seq<int>)
    ensures var s := ReceiveRun(NewSession(), OfSource(ssrc, indices));
      s.tracker == TrackAll(indices) && Recent(s.window, s.windowLen, EventsOf(indices))
  {
    OneSource(ssrc, indices);
    WindowHoldsLastEvents(OfSource(ssrc, indices));
  }

  // ---------- report blocks ----------

  /** A 32-bit pattern read as a signed number. */
  function Signed32(x: int): int {
    (x + 0x8000_0000) % 0x1_0000_0000 - 0x8000_0000
  }

  function Clamp24(x: int): int {
    Min(Max(x, -0x7F_FFFF), 0x7F_FFFF)
  }

  function CumulativeLost(t: Tracker): int {
    Clamp24(Signed32(t.expected - t.received))
  }

  /** Loss since the last report, in 256ths of what was expected since then. */
  function Fraction(lost: int, expected: nat): (f: byte) {
    if expected == 0 || lost <= 0 then 0 else Min(lost * 256 / expected, 255)
  }

  function FractionLost(t: Tracker): byte {
    var expected: nat := SaturatingSub(t.expected, t.lastExpected);
    var received := SaturatingSub(t.received, t.lastReceived);
    Fraction(Signed32(Signed32(expected) - Signed32(received)), expected)
  }

  function Reported(t: Tracker): Tracker {
    t.(lastReceived := t.received, lastExpected := t.expected)
  }

  /** The cumulative loss of a session's own report always fits the 24 bits it
      is sent in. */
  lemma {:induction false} OwnLossFits(t: Tracker)
    ensures -0x80_0000 <= CumulativeLost(t) <= 0x7F_FFFF
  {
  }

  lemma {:induction false} SmallIsSigned(x: int)
    requires -0x8000_0000 <= x < 0x8000_0000
    ensures Signed32(x) == x
  {
  }

  lemma {:induction false} FractionBounds(lost: nat, expected: nat)
    requires lost > 0 && expected > 0
    ensures var f: int := Fraction(lost, expected);
      f * expected <= 256 * lost && (f == 255 || 256 * lost < (f + 1) * expected)
  {
    var x := lost * 256;
    var q := x / expected;
    assert x == expected * q + x % expected;
    assert (q + 1) * expected == expected * q + expected;
    if q > 255 {
      assert (q - 255) * expected == q * expected - 255 * expected;
    }
  }

  /** While intervals stay below 2^31 the signed arithmetic is exact. */
  lemma {:induction false} FractionOfInterval(t: Tracker)
    requires t.lastExpected <= t.expected < t.lastExpected + 0x8000_0000
    requires t.lastReceived <= t.received < t.lastReceived + 0x8000_0000
    ensures var expected := t.expected - t.lastExpected;
      FractionLost(t) == Fraction(expected - (t.received - t.lastReceived), expected)
  {
    hide Fraction, Signed32;
    var expected, received := t.expected - t.lastExpected, t.received - t.lastReceived;
    SmallIsSigned(expected);
    SmallIsSigned(received);
    SmallIsSigned(expected - received);
  }

  /** What the fraction says: the loss since the last report, rounded down and
      capped at 255; zero when as many packets came as were expected. */
  lemma {:induction false} FractionMeaning(t: Tracker)
    requires t.lastExpected <= t.expected < t.lastExpected + 0x8000_0000
    requires t.lastReceived <= t.received < t.lastReceived + 0x8000_0000
    ensures var expected := t.expected - t.lastExpected;
      var lost, f: int := expected - (t.received - t.lastReceived), FractionLost(t);
      && (lost <= 0 ==> f == 0)
      && (lost > 0 ==> f * expected <= 256 * lost && (f == 255 || 256 * lost < (f + 1) * expected))
  {
    hide FractionLost;
    var expected := t.expected - t.lastExpected;
    var lost := expected - (t.received - t.lastReceived);
    FractionOfInterval(t);
    if lost > 0 {
      FractionBounds(lost, expected);
    }
  }

  /** A new session has received, expects and has lost nothing. */
  lemma {:induction false} NewSessionIsEmpty()
    ensures NewSession().remote.None? && NewSession().tracker == NoPackets()
    ensures (NewSession().windowLen, NewSession().burstDensity, NewSession().gapDensity) == (0, 0, 0)
    ensures NewSession().window == Repeat(true, 256)
    ensures NoPackets().expected == 0 && NoPackets().received == 0 && NoPackets().highestExt == 0
    ensures NoPackets().base == 0 && NoPackets().highest == 0
  {
  }

  lemma {:induction false} NothingIsLost()
    ensures CumulativeLost(NoPackets()) == 0 && FractionLost(NoPackets()) == 0
  {
  }

  // ---------- losses of successive reports ----------

  datatype SessionEvent = Received(index: int) | ReportBuilt

  function TrackerAfter(events: seq<SessionEvent>): Tracker {
    if events == [] then NoPackets()
    else
      var t, e := TrackerAfter(events[..|events| - 1]), events[|events| - 1];
      if e.Received? then Track(t, Low16(e.index)) else Reported(t)
  }

  function Indices(events: seq<SessionEvent>): seq<int> {
    if events == [] then []
    else
      var e := events[|events| - 1];
      Indices(events[..|events| - 1]) + if e.Received? then [e.index] else []
  }

  /** The loss since the last report, as the next report counts it. */
  function IntervalLoss(t: Tracker): int {
    SaturatingSub(t.expected, t.lastExpected) - SaturatingSub(t.received, t.lastReceived)
  }

  /** The sum of the losses that the reports of a run have stated. */
  function ReportedLoss(events: seq<SessionEvent>): int {
    if events == [] then 0
    else
      var before := events[..|events| - 1];
      ReportedLoss(before) + if events[|events| - 1].ReportBuilt? then IntervalLoss(TrackerAfter(before)) else 0
  }

  /** The counters of a steady run do not wrap. */
  predicate Fits(indices: seq<int>) {
    indices == [] ||
    (Highest(indices) - (indices[0] - Low16(indices[0])) <= U32_MAX
     && Highest(indices) - indices[0] < U32_MAX && |indices| <= U32_MAX)
  }

  lemma {:induction false} FitsBefore(indices: seq<int>, i: int)
    requires Steady(indices + [i]) && Fits(indices + [i])
    ensures Steady(indices) && Fits(indices)
  {
    assert (indices + [i])[..|indices|] == indices;
  }

  /** The counters of reports take no part in tracking, short of a far jump. */
  lemma {:induction false} TrackLeavesReports(t: Tracker, number: u16, r: u32, e: u32)
    requires t.started ==> !(MAX_DROPOUT <= Sub16(number, t.highest) <= 0xFFFF - MAX_MISORDER)
    ensures Track(t.(lastReceived := r, lastExpected := e), number)
         == Track(t, number).(lastReceived := r, lastExpected := e)
  {
  }

  lemma {:induction false} SteadyIsNotFar(indices: seq<int>, i: int)
    requires Steady(indices + [i])
    ensures var t := TrackAll(indices);
      t.started ==> !(MAX_DROPOUT <= Sub16(Low16(i), t.highest) <= 0xFFFF - MAX_MISORDER)
  {
    assert (indices + [i])[..|indices|] == indices;
    if indices != [] {
      TrackerRefines(indices);
      if i < Highest(indices) {
        BehindIsFar(Highest(indices), i);
      } else {
        NextCycle(Highest(indices), i);
      }
    }
  }

  /** Receiving only adds to the counters of a steady run that fits. */
  lemma {:induction false} CountersGrow(indices: seq<int>, i: int)
    requires Steady(indices + [i]) && Fits(indices + [i])
    ensures TrackAll(indices).expected <= TrackAll(indices + [i]).expected
    ensures TrackAll(indices).received <= TrackAll(indices + [i]).received
  {
    var all := indices + [i];
    assert all[..|indices|] == indices;
    ExpectedPackets(all);
    if indices == [] {
    } else {
      FitsBefore(indices, i);
      ExpectedPackets(indices);
    }
  }

  /** The links between reports: what a report saved is never ahead of the
      counters, and the losses stated so far are what was saved. */
  ghost predicate Linked(t: Tracker, events: seq<SessionEvent>) {
    && t == TrackAll(Indices(events)).(lastReceived := t.lastReceived, lastExpected := t.lastExpected)
    && t.lastExpected <= t.expected && t.lastReceived <= t.received
    && ReportedLoss(events) == t.lastExpected - t.lastReceived
  }

  lemma {:induction false} ReportLinks(events: seq<SessionEvent>)
    requires Linked(TrackerAfter(events), events)
    ensures Linked(TrackerAfter(events + [ReportBuilt]), events + [ReportBuilt])
  {
    hide Track;
    assert (events + [ReportBuilt])[..|events|] == events;
    assert Indices(events) + [] == Indices(events);
  }

  lemma {:induction false} ReportsAreLinked(events: seq<SessionEvent>)
    requires Steady(Indices(events)) && Fits(Indices(events))
    ensures Linked(TrackerAfter(events), events)
  {
    hide Track, Steady, Fits;
    if events == [] {
    } else {
      var before, e := events[..|events| - 1], events[|events| - 1];
      var t, indices := TrackerAfter(before), Indices(before);
      assert before + [e] == events;
      if e.Received? {
        FitsBefore(indices, e.index);
        ReportsAreLinked(before);
        SteadyIsNotFar(indices, e.index);
        TrackLeavesReports(TrackAll(indices), Low16(e.index), t.lastReceived, t.lastExpected);
        CountersGrow(indices, e.index);
        assert (indices + [e.index])[..|indices|] == indices;
      } else {
        assert Indices(before) + [] == Indices(before);
        ReportsAreLinked(before);
        ReportLinks(before);
      }
    }
  }

  /** The packets of a run from its first index to its highest, less those received:
      a duplicate takes one off. */
  function MissingPackets(indices: seq<int>): int
    requires indices != []
  {
    Highest(indices) - indices[0] + 1 - |indices|
  }

  /** Over any steady run of packets and reports, the losses that the reports count
      for their intervals, and state as fractions, add up at each report to the
      packets missing since the first. */
  lemma {:induction false} IntervalsAddUp(events: seq<SessionEvent>)
    requires Steady(Indices(events)) && Fits(Indices(events)) && Indices(events) != []
    requires events != [] && events[|events| - 1].ReportBuilt?
    ensures ReportedLoss(events) == MissingPackets(Indices(events))
  {
    var before := events[..|events| - 1];
    assert Indices(before) + [] == Indices(before);
    ReportsAreLinked(events);
    ReportsAreLinked(before);
    ExpectedPackets(Indices(events));
  }

  /** A count beyond 31 bits changes its sign, and is clamped at the other end. */
  lemma {:induction false} ClampedIff(x: int)
    requires -0x1_0000_0000 < x < 0x1_0000_0000
    ensures Clamp24(Signed32(x)) == Clamp24(x) <==> -0x8000_0000 <= x < 0x8000_0000
  {
    if -0x8000_0000 <= x < 0x8000_0000 {
      SmallIsSigned(x);
    } else {
      assert Signed32(x) == if x < 0 then x + 0x1_0000_0000 else x - 0x1_0000_0000;
    }
  }

  lemma {:induction false} MissingIsCounted(events: seq<SessionEvent>)
    requires Steady(Indices(events)) && Fits(Indices(events)) && Indices(events) != []
    ensures TrackerAfter(events).expected - TrackerAfter(events).received == MissingPackets(Indices(events))
  {
    hide Steady, TrackerAfter, ReportedLoss, Indices;
    ReportsAreLinked(events);
    ExpectedPackets(Indices(events));
  }

  /** The cumulative loss that a report after any steady run carries, whatever
      reports came before, is the packets missing since the first, clamped to 24
      bits, if and only if their number fits 32 signed bits. */
  lemma {:induction false} CumulativeLossIff(events: seq<SessionEvent>)
    requires Steady(Indices(events)) && Fits(Indices(events)) && Indices(events) != []
    ensures var missing := MissingPackets(Indices(events));
      CumulativeLost(TrackerAfter(events)) == Clamp24(missing) <==> -0x8000_0000 <= missing < 0x8000_0000
  {
    hide Signed32, Steady, Fits, MissingPackets, TrackerAfter, Indices, Clamp24;
    MissingIsCounted(events);
    var t := TrackerAfter(events);
    ClampedIff(t.expected - t.received);
  }
}
