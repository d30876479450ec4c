/** What one push and one pop of the jitter buffer do, told by the sender's indices
    of the packets and by playing times, whatever wraps. */
module JitterSteps {
  import opened Words
  import opened JitterSpec
  import opened JitterRuns

  /** How long `n` packets play, in milliseconds. */
  function Millis(c: Config, n: nat): nat
    requires c.sampleRate > 0
  {
    Thousandths(n, c.samplesPerPacket) / c.sampleRate
  }

  /** The samples of `n` packets, times a thousand. */
  function Thousandths(n: nat, samples: nat): nat {
    n * samples * 1000
  }

  lemma {:induction false} MsIsMillis(c: Config, n: nat)
    requires c.sampleRate > 0 && Millis(c, n) <= U32_MAX
    ensures Ms(c, n) == Millis(c, n)
  {
  }

  /** No packet of the buffer comes before `k`. */
  ghost predicate Earliest(packets: map<u16, Packet>, k: u16) {
    k in packets && forall m :: m in packets ==> packets[k].position <= packets[m].position
  }

  lemma {:induction false} EarliestIsOldest(packets: map<u16, Packet>, last: int, k: u16)
    requires Window(packets, last) && Earliest(packets, k)
    ensures k == Oldest(packets)
  {
    OldestIsEarliest(packets, last);
  }

  /** `last` is the index that playout stands on. */
  predicate StandsOn(s: State, last: int) {
    s.lastPlayed.None? || s.lastPlayed == Some(Low16(last))
  }

  // ---------- push ----------

  /** `kept` are the `size` latest of `packets`, or all of them. */
  ghost predicate LatestOf(kept: map<u16, Packet>, packets: map<u16, Packet>, size: nat) {
    && |kept| == Min(|packets|, size) && (forall k :: k in kept ==> k in packets && kept[k] == packets[k])
    && forall k, m :: k in kept && m in packets && m !in kept ==> packets[m].position < packets[k].position
  }

  lemma {:induction false} EvictKeepsLatest(packets: map<u16, Packet>, last: int, size: nat)
    requires Window(packets, last)
    ensures LatestOf(Evict(packets, size), packets, size)
    decreases |packets|
  {
    hide Oldest, Window;
    if |packets| > size {
      var k := Oldest(packets);
      RemoveOne(packets, k);
      OldestIsEarliest(packets, last);
      FewerInWindow(packets, last, k);
      EvictKeepsLatest(packets - {k}, last, size);
      LaterStill(Evict(packets - {k}, size), packets, k, size);
    }
  }

  lemma {:induction false} FewerInWindow(packets: map<u16, Packet>, last: int, k: u16)
    requires Window(packets, last)
    ensures Window(packets - {k}, last)
  {
  }

  lemma {:induction false} LaterStill(kept: map<u16, Packet>, packets: map<u16, Packet>, k: u16, size: nat)
    requires k in packets && |packets| > size && |packets - {k}| == |packets| - 1
    requires forall m :: m in packets && m != k ==> packets[k].position < packets[m].position
    requires LatestOf(kept, packets - {k}, size)
    ensures LatestOf(kept, packets, size)
  {
  }

  /** The newest timestamp lies `d` units before `timestamp`, the shorter way round. */
  predicate Later(newest: u32, timestamp: u32, d: int) {
    timestamp == Low32(newest + d) && -0x8000_0000 <= d < 0x8000_0000
  }

  lemma {:induction false} DiffIsDistance(newest: u32, timestamp: u32, d: int)
    requires Later(newest, timestamp, d)
    ensures TimestampDiff(timestamp, newest) == d
  {
  }

  predicate Ahead(p: Packet, last: int) {
    p.number == Low16(p.position) && last < p.position <= last + 0x8000
  }

  lemma {:induction false} AheadIsNotLate(s: State, p: Packet, last: int)
    requires StandsOn(s, last) && Ahead(p, last)
    ensures !Late(s, p.number)
  {
  }

  /** `high` is the highest index seen, less than half the number space from `p`. */
  predicate Highest(next: Option<u16>, high: int, p: Packet) {
    next.Some? ==> next == Some(Low16(high + 1)) && -0x8000 < p.position - high - 1 <= 0x8000
  }

  lemma {:induction false} BelowHighest(next: u16, high: int, p: Packet)
    requires Highest(Some(next), high, p) && p.number == Low16(p.position)
    ensures SequenceBefore(p.number, next) <==> p.position <= high
  {
    hide Low16, Sub16;
    if p.position <= high {
      Distance(p.position, high + 1);
    } else {
      Distance(high + 1, p.position);
      OtherWay(p.number, next);
    }
  }

  lemma {:induction false} OtherWay(a: u16, b: u16)
    ensures Sub16(a, b) == if a == b then 0 else 0x1_0000 - Sub16(b, a)
  {
  }

  lemma {:induction false} HighestMoves(next: Option<u16>, high: int, p: Packet)
    requires Highest(next, high, p) && p.number == Low16(p.position)
    ensures NextSequence(next, p.number)
         == Some(Low16((if next.Some? && high > p.position then high else p.position) + 1))
  {
    if next.Some? {
      BelowHighest(next.value, high, p);
    }
  }

  /** What every push short of a jump does to the counts of arrivals. */
  function Noted(s: State, p: Packet, high: int): Stats {
    s.stats.(received := s.stats.received + 1,
             reordered := s.stats.reordered + if s.nextSequence.Some? && p.position <= high then 1 else 0)
  }

  function NewestOf(newest: Option<u32>, timestamp: u32, d: int): u32 {
    if newest.Some? && d < 0 then newest.value else timestamp
  }

  /** A packet ahead of playout, and no more than five seconds from the newest: a
      duplicate is counted; otherwise the buffer keeps the latest of what it held and
      the packet, as many as it may, and counts the others dropped. Playout may start
      once the kept packets last as long as either delay. */
  ghost predicate Stores(c: Config, s: State, p: Packet, d: int, high: int, r: State)
    requires c.sampleRate > 0
  {
    && r.lastPlayed == s.lastPlayed && r.lastTimestamp == Some(NewestOf(s.lastTimestamp, p.timestamp, d))
    && if p.number in s.packets then
         && r.packets == s.packets && r.nextSequence == s.nextSequence && r.pace == s.pace
         && r.stats == Noted(s, p, high).(duplicated := s.stats.duplicated + 1)
       else
         && LatestOf(r.packets, s.packets[p.number := p], c.maxPackets)
         && |r.packets| == Min(|s.packets| + 1, c.maxPackets)
         && r.stats == Noted(s, p, high).(dropped := s.stats.dropped + |s.packets| + 1 - |r.packets|,
                                          bufferSize := |r.packets|)
         && r.nextSequence == Some(Low16((if s.nextSequence.Some? && high > p.position then high else p.position) + 1))
         && (Millis(c, |r.packets|) <= U32_MAX ==>
               var long := Millis(c, |r.packets|);
               r.pace == s.pace.(initialDone :=
                 s.pace.initialDone || long >= s.pace.currentDelay || long >= c.targetDelay))
  }

  lemma {:induction false} PushStoresLatest(c: Config, s: State, p: Packet, last: int, d: int, high: int)
    requires Usable(c) && Window(s.packets, last) && StandsOn(s, last) && Ahead(p, last)
    requires s.lastTimestamp.Some? ==> Later(s.lastTimestamp.value, p.timestamp, d) && Abs(d) <= 5 * c.sampleRate
    requires Highest(s.nextSequence, high, p)
    ensures Stores(c, s, p, d, high, Push(c, s, p))
  {
    hide Low16, Sub16, Ms, Millis, TimestampDiff, SequenceBefore, Evict, Late, NextSequence, Later, CheckBuffering;
    hide Window, LatestOf, Reordered;
    AheadIsNotLate(s, p, last);
    if s.lastTimestamp.Some? {
      DiffIsDistance(s.lastTimestamp.value, p.timestamp, d);
    }
    StoresArrival(c, s, p, last, high);
    HighestMoves(s.nextSequence, high, p);
    if p.number !in s.packets {
      InsertsLatest(c, s, p, last);
      BuffersLong(c, |Evict(s.packets[p.number := p], c.maxPackets)|, s.pace);
    }
  }

  lemma {:induction false} BuffersLong(c: Config, n: nat, pace: Pace)
    requires c.sampleRate > 0
    ensures Millis(c, n) <= U32_MAX ==>
      CheckBuffering(c, n, pace)
      == pace.(initialDone := pace.initialDone || Millis(c, n) >= pace.currentDelay || Millis(c, n) >= c.targetDelay)
  {
    hide Millis, Ms;
    if Millis(c, n) <= U32_MAX {
      MsIsMillis(c, n);
    }
  }

  lemma {:induction false} StoresArrival(c: Config, s: State, p: Packet, last: int, high: int)
    requires StandsOn(s, last) && Ahead(p, last) && Highest(s.nextSequence, high, p)
    ensures Reordered(s, p.number) <==> s.nextSequence.Some? && p.position <= high
  {
    AheadIsNotLate(s, p, last);
    if s.nextSequence.Some? {
      BelowHighest(s.nextSequence.value, high, p);
    }
  }

  lemma {:induction false} InsertsLatest(c: Config, s: State, p: Packet, last: int)
    requires Usable(c) && Window(s.packets, last) && Ahead(p, last) && p.number !in s.packets
    ensures var full := s.packets[p.number := p];
      |full| == |s.packets| + 1 && LatestOf(Evict(full, c.maxPackets), full, c.maxPackets)
  {
    var full := s.packets[p.number := p];
    assert full.Keys == s.packets.Keys + {p.number};
    EvictKeepsLatest(full, last, c.maxPackets);
  }

  /** A packet at or behind playout, by less than half the number space, is dropped
      and changes nothing else. */
  lemma {:induction false} PushDropsLate(c: Config, s: State, p: Packet, last: int)
    requires Usable(c) && s.lastPlayed == Some(Low16(last)) && p.number == Low16(p.position)
    requires last - 0x8000 < p.position <= last
    ensures Push(c, s, p)
         == s.(stats := s.stats.(received := s.stats.received + 1, dropped := s.stats.dropped + 1))
  {
    hide Insert, Jump, NextTimestamp, Reordered;
  }

  /** A packet more than five seconds from the newest, either way, starts the buffer
      again with nothing but this packet. */
  lemma {:induction false} PushStartsAgain(c: Config, s: State, p: Packet, last: int, d: int)
    requires Usable(c) && StandsOn(s, last) && Ahead(p, last)
    requires s.lastTimestamp.Some? && Later(s.lastTimestamp.value, p.timestamp, d) && Abs(d) > 5 * c.sampleRate
    ensures Push(c, s, p)
         == State(map[p.number := p], Some(Low16(p.number + 1)), None, Some(p.timestamp), Stats(1, 0, 0, 0, 0, 1),
                  Pace(c.targetDelay, false, false, 0, 0, 0, 0, 0))
  {
    hide TimestampDiff, Late, Insert, Later;
    AheadIsNotLate(s, p, last);
    DiffIsDistance(s.lastTimestamp.value, p.timestamp, d);
  }

  // ---------- pop ----------

  /** Does a pop find more than twice the delay buffered? */
  predicate TooLong(c: Config, s: State)
    requires c.sampleRate > 0
  {
    s.pace.initialDone && s.pace.currentDelay > 0 && Millis(c, |s.packets|) > 2 * s.pace.currentDelay
  }

  /** What a pop has to play from: all that is buffered but, above twice the delay,
      the earliest packet. */
  ghost predicate Playable(c: Config, s: State, rest: map<u16, Packet>)
    requires c.sampleRate > 0
  {
    if TooLong(c, s) then exists k :: Earliest(s.packets, k) && rest == s.packets - {k} else rest == s.packets
  }

  /** The playing times concerned fit 32 bits. */
  predicate Modest(c: Config, s: State)
    requires c.sampleRate > 0
  {
    2 * s.pace.currentDelay <= U32_MAX && Millis(c, |s.packets|) <= U32_MAX
  }

  /** The counters that every pop of a buffer that has started moves on. */
  function Popped(pace: Pace): Pace {
    pace.(playoutStarted := true, popCount := Low32(pace.popCount + 1), driftCheck := Low32(pace.driftCheck + 1))
  }

  function WithRest(s: State, rest: map<u16, Packet>): State {
    s.(packets := rest, pace := Popped(s.pace),
       stats := if rest == s.packets then s.stats
                else s.stats.(dropped := s.stats.dropped + 1, bufferSize := |rest|))
  }

  lemma {:induction false} LeavesRest(c: Config, s: State, last: int, rest: map<u16, Packet>)
    requires Usable(c) && Modest(c, s) && Window(s.packets, last) && Playable(c, s, rest)
    ensures SkipOverfull(c, StartPop(s)) == WithRest(s, rest) && Window(rest, last)
    ensures |rest| == if rest == s.packets then |s.packets| else |s.packets| - 1
  {
    hide Millis, Ms, Oldest, Overfull, Window, TooLong;
    TooLongIsOverfull(c, s);
    if TooLong(c, s) {
      FewerInWindow(s.packets, last, Oldest(s.packets));
      var k :| Earliest(s.packets, k) && rest == s.packets - {k};
      EarliestIsOldest(s.packets, last, k);
      RemoveOne(s.packets, k);
    }
  }

  lemma {:induction false} TooLongIsOverfull(c: Config, s: State)
    requires Usable(c) && Modest(c, s)
    ensures TooLong(c, s) <==> Overfull(c, |s.packets|, StartPop(s).pace)
    ensures TooLong(c, s) ==> s.packets != map[]
  {
    hide Ms;
    MsIsMillis(c, |s.packets|);
    assert Low32(s.pace.currentDelay * 2) == 2 * s.pace.currentDelay;
    assert Millis(c, 0) == 0;
  }

  /** Nothing is played before the buffer has filled once. */
  lemma {:induction false} PopSleeps(c: Config, s: State, target: u32)
    requires Usable(c) && !s.pace.initialDone && !s.pace.playoutStarted
    ensures Pop(c, s, target) == (s, None)
  {
  }

  predicate Started(s: State) {
    s.pace.initialDone || s.pace.playoutStarted
  }

  /** Packet `k` is the next to play. */
  ghost predicate IsNext(s: State, last: int, rest: map<u16, Packet>, k: u16) {
    k in rest && if s.lastPlayed.Some? then rest[k].position == last + 1 else Earliest(rest, k)
  }

  lemma {:induction false} NextIsTarget(s: State, last: int, rest: map<u16, Packet>, k: u16)
    requires Window(rest, last) && StandsOn(s, last) && IsNext(s, last, rest, k)
    ensures Target(s.(packets := rest)) == k
  {
    hide Oldest;
    if s.lastPlayed.Some? {
      Distance(last, last + 1);
    } else {
      EarliestIsOldest(rest, last, k);
    }
  }

  /** The next packet, when it is there, is the one that a pop returns: nothing else
      leaves the buffer, unless a drift skip passes the number after it. */
  lemma {:induction false} PopPlaysNext(
    c: Config, s: State, last: int, rest: map<u16, Packet>, k: u16, target: u32)
    requires Usable(c) && Modest(c, s) && Window(s.packets, last) && StandsOn(s, last) && Started(s)
    requires Playable(c, s, rest) && IsNext(s, last, rest, k)
    ensures var (r, out) := Pop(c, s, target);
      var (pace, skip) := CheckDrift(c, |rest| - 1,
                                     AdaptEvery250(c, |rest| - 1, Popped(s.pace).(consecutiveMiss := 0), target));
      && out == Some(rest[k]) && r.pace == pace
      && r.packets == (if skip then rest - {k} - {Low16(k + 1)} else rest - {k})
      && r.lastPlayed == Some(if skip then Low16(k + 1) else k)
      && r.stats == s.stats.(dropped := s.stats.dropped + |s.packets| - |r.packets| - 1, bufferSize := |r.packets|)
      && r.nextSequence == s.nextSequence && r.lastTimestamp == s.lastTimestamp
  {
    hide Ms, Millis, Oldest, SkipOverfull, CheckDrift, AdaptEvery250, Low16, Window, Playable;
    LeavesRest(c, s, last, rest);
    NextIsTarget(s, last, rest, k);
    var t := WithRest(s, rest);
    RemoveOne(rest, k);
    assert Target(t) == Target(s.(packets := rest));
    DeliversNext(c, t, k, target);
  }

  lemma {:induction false} DeliversNext(c: Config, s: State, k: u16, target: u32)
    requires Usable(c) && k in s.packets
    ensures var m := s.packets - {k};
      var (pace, skip) := CheckDrift(c, |m|, AdaptEvery250(c, |m|, s.pace.(consecutiveMiss := 0), target));
      var r := Deliver(c, s, k, target);
      && r.pace == pace && r.packets == (if skip then m - {Low16(k + 1)} else m)
      && r.lastPlayed == Some(if skip then Low16(k + 1) else k)
      && r.stats == s.stats.(dropped := s.stats.dropped + |m| - |r.packets|, bufferSize := |r.packets|)
      && r.nextSequence == s.nextSequence && r.lastTimestamp == s.lastTimestamp
  {
    hide CheckDrift, AdaptEvery250, Low16;
    var m := s.packets - {k};
    if Low16(k + 1) in m {
      RemoveOne(m, Low16(k + 1));
    } else {
      assert m - {Low16(k + 1)} == m;
    }
  }

  /** The next packet is not there. */
  ghost predicate NextIsMissing(s: State, last: int, rest: map<u16, Packet>) {
    s.lastPlayed == Some(Low16(last)) && forall k :: k in rest ==> rest[k].position != last + 1
  }

  lemma {:induction false} MissingIsNoKey(s: State, last: int, rest: map<u16, Packet>)
    requires Window(rest, last) && NextIsMissing(s, last, rest)
    ensures Low16(s.lastPlayed.value + 1) == Low16(last + 1) && Low16(last + 1) !in rest
    ensures forall k :: k in rest ==> rest[k].position > last + 1
  {
    Distance(last, last + 1);
    forall k | k in rest
      ensures k != Low16(last + 1)
    {
      if k == Low16(last + 1) {
        Distance(last, rest[k].position);
      }
    }
  }

  /** When the next packet is missing, a pop does one of three things. With less than
      half the delay left it changes nothing. Otherwise it counts the miss while that
      is not the last it may wait. Then it counts the number lost and, when more than
      half of what the buffer may hold is left, plays the earliest packet and counts
      every number passed over. */
  lemma {:induction false} PopMissesNext(c: Config, s: State, last: int, rest: map<u16, Packet>, target: u32)
    requires Usable(c) && Modest(c, s) && Window(s.packets, last) && Started(s) && s.pace.consecutiveMiss < U32_MAX
    requires Playable(c, s, rest) && NextIsMissing(s, last, rest)
    ensures var (r, out) := Pop(c, s, target);
      var t := WithRest(s, rest);
      if s.pace.initialDone && Millis(c, |rest|) < s.pace.currentDelay / 2 then r == t && out == None
      else if s.pace.consecutiveMiss + 1 < c.maxWait then
        out == None && r == t.(pace := t.pace.(consecutiveMiss := s.pace.consecutiveMiss + 1))
      else GivesUp(c, t.(pace := t.pace.(consecutiveMiss := 0)), last, rest, r, out)
  {
    hide Millis, Ms, GivesUp, Miss, Pop, Window;
    LeavesRest(c, s, last, rest);
    MillisGrow(c, |rest|, |s.packets|);
    PopIsMissing(c, s, last, rest, target);
    MissOutcome(c, WithRest(s, rest), last);
  }

  lemma {:induction false} PopIsMissing(c: Config, s: State, last: int, rest: map<u16, Packet>, target: u32)
    requires Usable(c) && Modest(c, s) && Window(s.packets, last) && Started(s)
    requires Playable(c, s, rest) && NextIsMissing(s, last, rest)
    ensures Pop(c, s, target) == Miss(c, WithRest(s, rest), Low16(last + 1))
  {
    hide Millis, Ms, SkipOverfull, Low16, Miss, Window;
    LeavesRest(c, s, last, rest);
    MissingIsNoKey(s, last, rest);
  }

  lemma {:induction false} MissOutcome(c: Config, t: State, last: int)
    requires Usable(c) && Millis(c, |t.packets|) <= U32_MAX && t.pace.consecutiveMiss < U32_MAX
    requires Window(t.packets, last) && NextIsMissing(t, last, t.packets)
    ensures var (r, out) := Miss(c, t, Low16(last + 1));
      if t.pace.initialDone && Millis(c, |t.packets|) < t.pace.currentDelay / 2 then r == t && out == None
      else if t.pace.consecutiveMiss + 1 < c.maxWait then
        out == None && r == t.(pace := t.pace.(consecutiveMiss := t.pace.consecutiveMiss + 1))
      else GivesUp(c, t.(pace := t.pace.(consecutiveMiss := 0)), last, t.packets, r, out)
  {
    hide Millis, Ms, Low16, GivesUp, CatchUp, Window;
    MsIsMillis(c, |t.packets|);
    assert Low32(t.pace.consecutiveMiss + 1) == t.pace.consecutiveMiss + 1;
    GivingUp(c, t.(pace := t.pace.(consecutiveMiss := 0)), last);
  }

  lemma {:induction false} GivingUp(c: Config, t: State, last: int)
    requires Window(t.packets, last) && NextIsMissing(t, last, t.packets)
    ensures var gone := t.(lastPlayed := Some(Low16(last + 1)), stats := t.stats.(lost := t.stats.lost + 1));
      if |t.packets| > c.maxPackets / 2
      then var (r, out) := CatchUp(gone, Low16(last + 1)); GivesUp(c, t, last, t.packets, r, out)
      else GivesUp(c, t, last, t.packets, gone, None)
  {
    hide Low16, CatchUp, Window, Oldest;
    MissingIsNoKey(t, last, t.packets);
    if |t.packets| > c.maxPackets / 2 {
      CatchesUp(t.(lastPlayed := Some(Low16(last + 1)), stats := t.stats.(lost := t.stats.lost + 1)), last, t.packets);
    }
  }

  /** The number after `last` is given up, and perhaps more. */
  ghost predicate GivesUp(
    c: Config, s: State, last: int, rest: map<u16, Packet>, r: State, out: Option<Packet>) {
    if |rest| <= c.maxPackets / 2 then
      out == None && r == s.(lastPlayed := Some(Low16(last + 1)), stats := s.stats.(lost := s.stats.lost + 1))
    else
      exists k :: Earliest(rest, k) && CaughtUp(s, last, rest, k, r, out)
  }

  /** Playout goes on with packet `k`, and every number before it is counted lost. */
  predicate CaughtUp(s: State, last: int, rest: map<u16, Packet>, k: u16, r: State, out: Option<Packet>)
    requires k in rest
  {
    && out == Some(rest[k])
    && r == s.(packets := rest - {k}, lastPlayed := Some(k),
               stats := s.stats.(lost := s.stats.lost + Between(last, rest[k].position), bufferSize := |rest - {k}|))
  }

  /** How many indices lie strictly between. */
  function Between(low: int, high: int): nat {
    if low < high then high - low - 1 else 0
  }

  lemma {:induction false} CatchesUp(s: State, last: int, rest: map<u16, Packet>)
    requires s.packets == rest != map[] && Window(rest, last)
    requires forall k :: k in rest ==> rest[k].position > last + 1
    ensures var (r, out) := CatchUp(s, Low16(last + 1));
      Earliest(rest, Oldest(rest)) && CaughtUp(s, last + 1, rest, Oldest(rest), r, out)
  {
    hide Oldest, Low16, Sub16;
    var k := Oldest(rest);
    OldestIsEarliest(rest, last);
    CatchUpLosses(last, rest[k].position);
  }

  lemma {:induction false} MillisGrow(c: Config, m: nat, n: nat)
    requires c.sampleRate > 0 && m <= n
    ensures Millis(c, m) <= Millis(c, n)
  {
    var a, b := m * c.samplesPerPacket * 1000, n * c.samplesPerPacket * 1000;
    ProductsGrow(m, n, c.samplesPerPacket);
    DivisionsGrow(a, b, c.sampleRate);
  }

  lemma {:induction false} ProductsGrow(m: nat, n: nat, x: nat)
    requires m <= n
    ensures m * x <= n * x
  {
  }

  lemma {:induction false} DivisionsGrow(a: nat, b: nat, y: nat)
    requires a <= b && y > 0
    ensures a / y <= b / y
  {
    assert a == y * (a / y) + a % y && b == y * (b / y) + b % y;
    if b / y < a / y {
      ProductsGrow(b / y + 1, a / y, y);
    }
  }

  /** Before the first delivery, with nothing buffered, a pop waits. */
  lemma {:induction false} PopFindsNothing(c: Config, s: State, target: u32)
    requires Usable(c) && Started(s) && s.lastPlayed.None? && s.packets == map[]
    ensures Pop(c, s, target) == (s.(pace := Popped(s.pace)), None)
  {
  }

  // ---------- the counts of arrivals ----------

  predicate SameArrivals(s: State, r: State) {
    r.stats.received == s.stats.received && r.stats.reordered == s.stats.reordered
  }

  lemma {:induction false} DeliverCountsNoArrival(c: Config, s: State, k: u16, target: u32)
    requires Usable(c) && k in s.packets
    ensures SameArrivals(s, Deliver(c, s, k, target))
  {
    hide AdaptEvery250, CheckDrift;
  }

  lemma {:induction false} MissCountsNoArrival(c: Config, s: State, k: u16)
    requires Usable(c)
    ensures SameArrivals(s, Miss(c, s, k).0)
  {
    hide Oldest, HoldOff;
  }

  lemma {:induction false} PopCountsNoArrival(c: Config, s: State, target: u32)
    requires Usable(c)
    ensures SameArrivals(s, Pop(c, s, target).0)
  {
    hide Deliver, Miss, Overfull, Oldest, Target;
    var t := SkipOverfull(c, StartPop(s));
    if t.lastPlayed.Some? || t.packets != map[] {
      if Target(t) in t.packets {
        DeliverCountsNoArrival(c, t, Target(t), target);
      }
      MissCountsNoArrival(c, t, Target(t));
    }
  }

  lemma {:induction false} PushCountsArrival(c: Config, s: State, p: Packet)
    requires Usable(c) && s.stats.reordered <= s.stats.received
    ensures Push(c, s, p).stats.reordered <= Push(c, s, p).stats.received
  {
    hide Ms, Oldest, Low16, Evict, SequenceBefore, TimestampDiff;
  }

  /** Over any run, from nothing: no more packets arrive late in order than arrive. */
  lemma {:induction false} ReorderedAreReceived(
    c: Config, origin: int, events: seq<Event>, runs: seq<Run>, n: nat)
    requires Usable(c) && IsRun(c, origin, events, runs) && n <= |events|
    ensures runs[n].s.stats.reordered <= runs[n].s.stats.received
  {
    hide Push, Pop;
    if n == 0 {
    } else {
      ReorderedAreReceived(c, origin, events, runs, n - 1);
      var g, e := runs[n - 1], events[n - 1];
      assert Follows(c, g, e, runs[n - 1 + 1]);
      if e.Arrive? {
        PushCountsArrival(c, g.s, Labelled(c, g, e));
      } else if e.Play? {
        PopCountsNoArrival(c, g.s, e.jitterTarget);
      }
    }
  }

  // ---------- a restart ----------

  lemma {:induction false} OneKept(kept: map<u16, Packet>, p: Packet, size: nat)
    requires size >= 1 && LatestOf(kept, map[p.number := p], size)
    ensures kept == map[p.number := p]
  {
    assert map[p.number := p].Keys == {p.number};
    assert kept != map[];
    var k :| k in kept;
  }

  lemma {:induction false} FirstAfterRestart(c: Config, s: State, p: Packet, d: int)
    requires Usable(c) && c.maxPackets >= 1 && p.number == Low16(p.position) && Millis(c, 1) <= U32_MAX
    requires s.lastTimestamp.Some? ==> Later(s.lastTimestamp.value, p.timestamp, d) && Abs(d) <= 5 * c.sampleRate
    ensures var t := Push(c, Restart(s), p);
      && t.packets == map[p.number := p] && t.lastPlayed == None
      && t.pace == s.pace.(initialDone := Millis(c, 1) >= s.pace.currentDelay || Millis(c, 1) >= c.targetDelay)
  {
    hide Push, Millis, Low16, Later;
    var r := Restart(s);
    PushStoresLatest(c, r, p, p.position - 1, d, p.position - 1);
    assert r.packets[p.number := p] == map[p.number := p];
    OneKept(Push(c, r, p).packets, p, c.maxPackets);
    assert |map[p.number := p]| == 1;
  }

  lemma {:induction false} PlaysOnly(c: Config, t: State, p: Packet, target: u32)
    requires Usable(c) && Modest(c, t) && Started(t) && !t.pace.initialDone && t.lastPlayed.None?
    requires t.packets == map[p.number := p] && p.number == Low16(p.position)
    ensures Pop(c, t, target).1 == Some(p)
  {
    hide Pop, Millis, Low16, CheckDrift, AdaptEvery250;
    PopPlaysNext(c, t, p.position - 1, t.packets, p.number, target);
  }

  /** A marker restart of a buffer that has played before is followed by the very
      first packet that arrives: playout does not wait for the buffer to fill. */
  lemma {:induction false} RestartPlaysAtOnce(c: Config, s: State, p: Packet, d: int, target: u32)
    requires Usable(c) && c.maxPackets >= 1 && p.number == Low16(p.position) && s.pace.playoutStarted
    requires Millis(c, 1) < s.pace.currentDelay && Millis(c, 1) < c.targetDelay && 2 * s.pace.currentDelay <= U32_MAX
    requires s.lastTimestamp.Some? ==> Later(s.lastTimestamp.value, p.timestamp, d) && Abs(d) <= 5 * c.sampleRate
    ensures var t := Push(c, Restart(s), p);
      !t.pace.initialDone && Pop(c, t, target).1 == Some(p)
  {
    hide Push, Pop, Millis, Low16, Restart, Later;
    FirstAfterRestart(c, s, p, d);
    var t := Push(c, Restart(s), p);
    assert t.packets.Keys == {p.number};
    assert |t.packets| == 1;
    PlaysOnly(c, t, p, target);
  }
}
