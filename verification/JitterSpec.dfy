/** The adaptive jitter buffer (src/rtp/jitter.rs), one call at a time: what
    each operation does to the buffer's state, as functions on values. */
module JitterSpec {
  import opened Words

  /** `position` is the sender's unbounded packet index, of which `number` is the
      low 16 bits. It is bookkeeping for the theorems: no branch looks at it. */
  datatype Packet = Packet(number: u16, timestamp: u32, payload: seq<byte>, position: int)

  datatype Config = Config(
    minDelay: u32, maxDelay: u32, targetDelay: u32,
    maxPackets: nat, sampleRate: u32, samplesPerPacket: u32, maxWait: u32)

  /** What the source demands: it divides by the sample rate, and clamps into
      [minDelay, maxDelay]. */
  predicate Usable(c: Config) {
    c.sampleRate > 0 && c.minDelay <= c.maxDelay
  }

  /** The counters that decide when playout starts, waits, adapts and skips. */
  datatype Pace = Pace(
    currentDelay: u32,
    playoutStarted: bool, initialDone: bool,
    consecutiveMiss: u32, popCount: u32,
    driftHigh: u32, driftLow: u32, driftCheck: u32)

  datatype Stats = Stats(received: nat, lost: nat, dropped: nat, reordered: nat, duplicated: nat, bufferSize: nat)

  datatype State = State(
    packets: map<u16, Packet>,
    nextSequence: Option<u16>, lastPlayed: Option<u16>, lastTimestamp: Option<u32>,
    stats: Stats,
    pace: Pace)

  /** `sequence_before`: `a` is less than half the number space behind `b`. */
  predicate SequenceBefore(a: u16, b: u16) {
    0 < Sub16(b, a) < 0x8000
  }

  function Fresh(c: Config): State {
    State(map[], None, None, None, Stats(0, 0, 0, 0, 0, 0), Pace(c.targetDelay, false, false, 0, 0, 0, 0, 0))
  }

  // ---------- the "oldest packet" scan ----------

  /** The scan over a BTreeMap's keys, which come in increasing numeric order:
      `best` is the choice among the keys below `k`. */
  function Scan(keys: set<u16>, k: nat, best: Option<u16>): Option<u16>
    requires k <= 0x1_0000
    decreases 0x1_0000 - k
  {
    if k == 0x1_0000 then best
    else Scan(keys, k + 1, ScanOne(keys, k, best))
  }

  function ScanOne(keys: set<u16>, k: u16, best: Option<u16>): Option<u16> {
    if k in keys && (best.None? || SequenceBefore(k, best.value)) then Some(k) else best
  }

  lemma {:induction false} ScanFinds(keys: set<u16>, k: nat, best: Option<u16>)
    requires k <= 0x1_0000
    requires best.Some? ==> best.value in keys
    requires best.None? ==> forall j: u16 :: j in keys ==> k <= j
    ensures var r := Scan(keys, k, best);
      (r.Some? <==> keys != {}) && (r.Some? ==> r.value in keys)
    decreases 0x1_0000 - k
  {
    if k == 0x1_0000 {
      if best.None? {
        assert forall j: u16 :: j !in keys;
      }
    } else {
      ScanFinds(keys, k + 1, ScanOne(keys, k, best));
    }
  }

  function Oldest(packets: map<u16, Packet>): (k: u16)
    requires packets != map[]
    ensures k in packets
  {
    assert packets.Keys != {} by { var k :| k in packets; assert k in packets.Keys; }
    ScanFinds(packets.Keys, 0, None);
    Scan(packets.Keys, 0, None).value
  }

  // ---------- push ----------

  predicate Late(s: State, number: u16) {
    s.lastPlayed.Some? && (SequenceBefore(number, s.lastPlayed.value) || number == s.lastPlayed.value)
  }

  /** The signed distance of two timestamps, by half-space comparison. */
  function TimestampDiff(ts: u32, last: u32): int {
    var forward: int, backward: int := Sub32(ts, last), Sub32(last, ts);
    if forward < 0x8000_0000 then forward else -backward
  }

  predicate Jump(c: Config, s: State, ts: u32) {
    s.lastTimestamp.Some? && Abs(TimestampDiff(ts, s.lastTimestamp.value)) > c.sampleRate * 5
  }

  /** After a timestamp jump the buffer resets itself and keeps only this packet. */
  function JumpReset(c: Config, p: Packet): State {
    Fresh(c).(packets := map[p.number := p], nextSequence := Some(Low16(p.number + 1)),
              lastTimestamp := Some(p.timestamp), stats := Stats(1, 0, 0, 0, 0, 1))
  }

  function NextTimestamp(last: Option<u32>, ts: u32): Option<u32> {
    if last.None? || TimestampDiff(ts, last.value) >= 0 then Some(ts) else last
  }

  predicate Reordered(s: State, number: u16) {
    s.nextSequence.Some? && SequenceBefore(number, s.nextSequence.value)
    && (s.lastPlayed.Some? ==> !SequenceBefore(number, s.lastPlayed.value))
  }

  function NextSequence(next: Option<u16>, number: u16): Option<u16> {
    if next.None? || !SequenceBefore(number, next.value) then Some(Low16(number + 1)) else next
  }

  /** Eviction while the map is over its bound, oldest packet first. */
  function Evict(packets: map<u16, Packet>, maxPackets: nat): (kept: map<u16, Packet>)
    ensures |kept| <= maxPackets && |kept| <= |packets|
    ensures forall k :: k in kept ==> k in packets && kept[k] == packets[k]
    decreases |packets|
  {
    if |packets| > maxPackets then
      assert |(packets - {Oldest(packets)}).Keys| == |packets.Keys - {Oldest(packets)}|;
      Evict(packets - {Oldest(packets)}, maxPackets)
    else packets
  }

  /** The playing time of `n` packets in milliseconds, cut to 32 bits. */
  function Ms(c: Config, n: nat): u32
    requires c.sampleRate > 0
  {
    Low32(n * c.samplesPerPacket * 1000 / c.sampleRate)
  }

  function CheckBuffering(c: Config, n: nat, pace: Pace): Pace
    requires c.sampleRate > 0
  {
    if !pace.initialDone && Ms(c, n) >= Min(pace.currentDelay, c.targetDelay)
    then pace.(initialDone := true) else pace
  }

  function Insert(c: Config, s: State, p: Packet): State
    requires c.sampleRate > 0
  {
    var full := s.packets[p.number := p];
    var kept := Evict(full, c.maxPackets);
    s.(nextSequence := NextSequence(s.nextSequence, p.number), packets := kept,
       stats := s.stats.(dropped := s.stats.dropped + |full| - |kept|, bufferSize := |kept|),
       pace := CheckBuffering(c, |kept|, s.pace))
  }

  function Push(c: Config, s: State, p: Packet): State
    requires c.sampleRate > 0
  {
    var stats := s.stats.(received := s.stats.received + 1);
    if Late(s, p.number) then s.(stats := stats.(dropped := stats.dropped + 1))
    else if Jump(c, s, p.timestamp) then JumpReset(c, p)
    else
      var stats1 := if Reordered(s, p.number) then stats.(reordered := stats.reordered + 1) else stats;
      var s1 := s.(lastTimestamp := NextTimestamp(s.lastTimestamp, p.timestamp), stats := stats1);
      if p.number in s.packets then s1.(stats := stats1.(duplicated := stats1.duplicated + 1))
      else Insert(c, s1, p)
  }

  function Drop(s: State, k: u16): State {
    var m := s.packets - {k};
    s.(packets := m, stats := s.stats.(dropped := s.stats.dropped + 1, bufferSize := |m|))
  }

  // ---------- pop ----------

  function StartPop(s: State): State {
    s.(pace := s.pace.(playoutStarted := true, popCount := Low32(s.pace.popCount + 1),
                       driftCheck := Low32(s.pace.driftCheck + 1)))
  }

  predicate Overfull(c: Config, n: nat, pace: Pace)
    requires c.sampleRate > 0
  {
    pace.initialDone && Ms(c, n) > Low32(pace.currentDelay * 2) && pace.currentDelay > 0
  }

  /** An overfull buffer drops its oldest packet, without advancing playout. */
  function SkipOverfull(c: Config, s: State): State
    requires c.sampleRate > 0
  {
    if Overfull(c, |s.packets|, s.pace) && s.packets != map[] then Drop(s, Oldest(s.packets)) else s
  }

  /** `n` packets are buffered; `jitterTarget` stands for twice the
      floating-point jitter estimate. */
  function Adapt(c: Config, n: nat, pace: Pace, jitterTarget: u32): Pace
    requires Usable(c)
  {
    Steer(c, Ms(c, n), Max(c.minDelay, Min(jitterTarget, c.maxDelay)), Max(Ms(c, 1), 1), pace)
  }

  /** Five milliseconds up when the level is below the band around the target,
      down when it is above. */
  function Steer(c: Config, level: u32, target: u32, band: u32, pace: Pace): Pace {
    if level < SaturatingSub(target, band)
    then pace.(currentDelay := Min(Low32(pace.currentDelay + 5), c.maxDelay))
    else if level > Min(target + band, U32_MAX)
    then pace.(currentDelay := Max(SaturatingSub(pace.currentDelay, 5), c.minDelay))
    else pace
  }

  function AdaptEvery250(c: Config, n: nat, pace: Pace, jitterTarget: u32): Pace
    requires Usable(c)
  {
    if pace.popCount >= 250 then Adapt(c, n, pace.(popCount := 0), jitterTarget) else pace
  }

  function TargetPackets(c: Config): nat
    requires c.sampleRate > 0
  {
    c.targetDelay / Max(Low32(c.samplesPerPacket * 1000) / c.sampleRate, 1)
  }

  /** Every 500 pops: three observations of an overfull buffer in a row ask
      for a drift skip. */
  function CheckDrift(c: Config, n: nat, pace: Pace): (Pace, bool)
    requires c.sampleRate > 0
  {
    var target := TargetPackets(c);
    if pace.driftCheck % 500 != 0 || pace.driftCheck == 0 then (pace, false)
    else if n > target + 2 then
      var high := Low32(pace.driftHigh + 1);
      (pace.(driftHigh := if high >= 3 then 0 else high, driftLow := 0), high >= 3)
    else if n < SaturatingSub(target, 2) && target > 2 then
      var low := Low32(pace.driftLow + 1);
      (pace.(driftLow := if low >= 3 then 0 else low, driftHigh := 0), false)
    else (pace.(driftHigh := 0, driftLow := 0), false)
  }

  /** The drift skip moves playout one number past `played`; a packet waiting
      there is discarded. */
  function DriftSkip(s: State, played: u16): State {
    var skipped := Low16(played + 1);
    (if skipped in s.packets then Drop(s, skipped) else s).(lastPlayed := Some(skipped))
  }

  function Deliver(c: Config, s: State, target: u16, jitterTarget: u32): State
    requires Usable(c)
    requires target in s.packets
  {
    var m := s.packets - {target};
    var (pace, skip) :=
      CheckDrift(c, |m|, AdaptEvery250(c, |m|, s.pace.(consecutiveMiss := 0), jitterTarget));
    var s1 := s.(packets := m, lastPlayed := Some(target), stats := s.stats.(bufferSize := |m|), pace := pace);
    if skip then DriftSkip(s1, target) else s1
  }

  predicate HoldOff(c: Config, n: nat, pace: Pace)
    requires c.sampleRate > 0
  {
    pace.initialDone && Ms(c, n) < pace.currentDelay / 2
  }

  /** The target number is missing: hold off, wait, or count it lost and, when
      the buffer is more than half full, catch up with the oldest packet. */
  function Miss(c: Config, s: State, target: u16): (State, Option<Packet>)
    requires c.sampleRate > 0
  {
    var misses := Low32(s.pace.consecutiveMiss + 1);
    if HoldOff(c, |s.packets|, s.pace) then (s, None)
    else if misses < c.maxWait then (s.(pace := s.pace.(consecutiveMiss := misses)), None)
    else
      var s1 := s.(pace := s.pace.(consecutiveMiss := 0), lastPlayed := Some(target),
                   stats := s.stats.(lost := s.stats.lost + 1));
      if |s.packets| > c.maxPackets / 2 then CatchUp(s1, target) else (s1, None)
  }

  function CatchUp(s: State, target: u16): (State, Option<Packet>)
    requires s.packets != map[]
  {
    var k := Oldest(s.packets);
    var skipped := Sub16(k, Low16(target + 1));
    var m := s.packets - {k};
    var lost := if 0 < skipped < 0x8000 then s.stats.lost + skipped else s.stats.lost;
    (s.(packets := m, lastPlayed := Some(k), stats := s.stats.(lost := lost, bufferSize := |m|)),
     Some(s.packets[k]))
  }

  function Pop(c: Config, s: State, jitterTarget: u32): (State, Option<Packet>)
    requires Usable(c)
  {
    if !s.pace.initialDone && !s.pace.playoutStarted then (s, None)
    else PlayNext(c, SkipOverfull(c, StartPop(s)), jitterTarget)
  }

  function PlayNext(c: Config, s: State, jitterTarget: u32): (State, Option<Packet>)
    requires Usable(c)
  {
    if s.lastPlayed.None? && s.packets == map[] then (s, None)
    else
      var target := Target(s);
      if target in s.packets
      then (Deliver(c, s, target, jitterTarget), Some(s.packets[target]))
      else Miss(c, s, target)
  }

  /** Playout goes on where it stopped, and starts with the oldest packet. */
  function Target(s: State): u16
    requires s.lastPlayed.Some? || s.packets != map[]
  {
    if s.lastPlayed.Some? then Low16(s.lastPlayed.value + 1) else Oldest(s.packets)
  }

  /** `reset_initial_buffering`: a marker bit announced a new talk spurt. */
  function Restart(s: State): State {
    s.(packets := map[], nextSequence := None, lastPlayed := None, stats := s.stats.(bufferSize := 0),
       pace := s.pace.(initialDone := false))
  }
}
