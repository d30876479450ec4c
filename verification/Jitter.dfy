/** The jitter buffer as the object the source keeps: fields updated in place,
    scans and eviction as loops, each method proved against JitterSpec. */
module Jitter {
  import opened Words
  import opened JitterSpec

  class JitterBuffer {
    const config: Config
    var packets: map<u16, Packet>
    var nextSequence: Option<u16>
    var lastPlayed: Option<u16>
    var lastTimestamp: Option<u32>
    var stats: Stats
    var pace: Pace

    ghost function Now(): State
      reads this
    {
      State(packets, nextSequence, lastPlayed, lastTimestamp, stats, pace)
    }

    constructor (config: Config)
      ensures this.config == config && Now() == Fresh(config)
    {
      this.config := config;
      packets, nextSequence, lastPlayed, lastTimestamp := map[], None, None, None;
      stats := Stats(0, 0, 0, 0, 0, 0);
      pace := Pace(config.targetDelay, false, false, 0, 0, 0, 0, 0);
    }

    method Reset()
      modifies this
      ensures Now() == Fresh(config)
    {
      packets, nextSequence, lastPlayed, lastTimestamp := map[], None, None, None;
      stats := Stats(0, 0, 0, 0, 0, 0);
      pace := Pace(config.targetDelay, false, false, 0, 0, 0, 0, 0);
    }

    method ResetInitialBuffering()
      modifies this
      ensures Now() == Restart(old(Now()))
    {
      pace := pace.(initialDone := false);
      packets, stats := map[], stats.(bufferSize := 0);
      lastPlayed, nextSequence := None, None;
    }

    /** The scan for the truly oldest key, over the keys in numeric order. */
    method FindOldest() returns (oldest: u16)
      requires packets != map[]
      ensures oldest == Oldest(packets)
    {
      var best: Option<u16> := None;
      var k := 0;
      while k < 0x1_0000
        invariant 0 <= k <= 0x1_0000
        invariant Scan(packets.Keys, k, best) == Scan(packets.Keys, 0, None)
      {
        if k in packets && (best.None? || SequenceBefore(k, best.value)) {
          best := Some(k);
        }
        k := k + 1;
      }
      assert Scan(packets.Keys, 0, None) == Some(Oldest(packets)) by {
        var j :| j in packets;
        assert j in packets.Keys;
        ScanFinds(packets.Keys, 0, None);
      }
      oldest := best.value;
    }

    method EvictOverBound()
      modifies `packets, `stats
      ensures packets == Evict(old(packets), config.maxPackets)
      ensures stats == old(stats).(dropped := old(stats.dropped) + |old(packets)| - |packets|)
    {
      while |packets| > config.maxPackets
        invariant Evict(packets, config.maxPackets) == Evict(old(packets), config.maxPackets)
        invariant stats == old(stats).(dropped := stats.dropped)
        invariant stats.dropped + |packets| == old(stats.dropped) + |old(packets)|
        decreases |packets|
      {
        var k := FindOldest();
        assert (packets - {k}).Keys == packets.Keys - {k};
        packets, stats := packets - {k}, stats.(dropped := stats.dropped + 1);
      }
    }

    method Push(p: Packet)
      requires config.sampleRate > 0
      modifies this
      ensures Now() == JitterSpec.Push(config, old(Now()), p)
    {
      hide Sub16, Low16, TimestampDiff, Insert, NextTimestamp;
      stats := stats.(received := stats.received + 1);
      if lastPlayed.Some? && (SequenceBefore(p.number, lastPlayed.value) || p.number == lastPlayed.value) {
        stats := stats.(dropped := stats.dropped + 1);
        return;
      }
      if lastTimestamp.Some? && Abs(TimestampDiff(p.timestamp, lastTimestamp.value)) > config.sampleRate * 5 {
        Reset();
        stats := stats.(received := stats.received + 1);
        lastTimestamp, nextSequence := Some(p.timestamp), Some(Low16(p.number + 1));
        packets := packets[p.number := p];
        stats := stats.(bufferSize := |packets|);
        return;
      }
      assert !Late(old(Now()), p.number) && !Jump(config, old(Now()), p.timestamp);
      NoteArrival(p);
      if p.number in packets {
        stats := stats.(duplicated := stats.duplicated + 1);
        return;
      }
      Store(p);
    }

    /** The timestamp baseline and the count of reordered packets. */
    method NoteArrival(p: Packet)
      modifies `lastTimestamp, `stats
      ensures lastTimestamp == NextTimestamp(old(lastTimestamp), p.timestamp)
      ensures stats == if Reordered(old(Now()), p.number) then old(stats).(reordered := old(stats.reordered) + 1)
                       else old(stats)
    {
      if lastTimestamp.Some? {
        if TimestampDiff(p.timestamp, lastTimestamp.value) >= 0 {
          lastTimestamp := Some(p.timestamp);
        }
      } else {
        lastTimestamp := Some(p.timestamp);
      }
      if nextSequence.Some? && SequenceBefore(p.number, nextSequence.value) {
        if lastPlayed.None? || !SequenceBefore(p.number, lastPlayed.value) {
          stats := stats.(reordered := stats.reordered + 1);
        }
      }
    }

    method Store(p: Packet)
      requires config.sampleRate > 0
      modifies this
      ensures Now() == Insert(config, old(Now()), p)
    {
      InsertAndEvict(p);
      CheckInitialBuffering();
    }

    method InsertAndEvict(p: Packet)
      modifies `packets, `nextSequence, `stats
      ensures nextSequence == NextSequence(old(nextSequence), p.number)
      ensures var full := old(packets)[p.number := p];
        && packets == Evict(full, config.maxPackets)
        && stats == old(stats).(dropped := old(stats.dropped) + |full| - |packets|, bufferSize := |packets|)
    {
      hide Evict, Oldest, Sub16;
      if nextSequence.None? || !SequenceBefore(p.number, nextSequence.value) {
        nextSequence := Some(Low16(p.number + 1));
      }
      packets := packets[p.number := p];
      EvictOverBound();
      stats := stats.(bufferSize := |packets|);
    }

    method CheckInitialBuffering()
      requires config.sampleRate > 0
      modifies `pace
      ensures pace == CheckBuffering(config, |packets|, old(pace))
    {
      if !pace.initialDone {
        if Ms(config, |packets|) >= Min(pace.currentDelay, config.targetDelay) {
          pace := pace.(initialDone := true);
        }
      }
    }

    method AdaptDelay(jitterTarget: u32)
      requires Usable(config)
      modifies `pace
      ensures pace == Adapt(config, |packets|, old(pace), jitterTarget)
    {
      var level := Ms(config, |packets|);
      var target := Max(config.minDelay, Min(jitterTarget, config.maxDelay));
      var band := Max(Ms(config, 1), 1);
      if level < SaturatingSub(target, band) {
        pace := pace.(currentDelay := Min(Low32(pace.currentDelay + 5), config.maxDelay));
      } else if level > Min(target + band, U32_MAX) {
        pace := pace.(currentDelay := Max(SaturatingSub(pace.currentDelay, 5), config.minDelay));
      }
    }

    /** The clock drift check of a delivery; `played` is the number just delivered. */
    method CheckClockDrift(played: u16)
      requires config.sampleRate > 0 && lastPlayed == Some(played)
      modifies this
      ensures var (next, skip) := CheckDrift(config, |old(packets)|, old(pace));
        Now() == if skip then DriftSkip(old(Now()).(pace := next), played) else old(Now()).(pace := next)
    {
      hide TargetPackets, Low32, Low16;
      if pace.driftCheck % 500 == 0 && pace.driftCheck > 0 {
        var fill, target := |packets|, TargetPackets(config);
        if fill > target + 2 {
          pace := pace.(driftHigh := Low32(pace.driftHigh + 1), driftLow := 0);
          if pace.driftHigh >= 3 {
            pace := pace.(driftHigh := 0);
            var skipped := Low16(played + 1);
            if skipped in packets {
              packets := packets - {skipped};
              stats := stats.(dropped := stats.dropped + 1, bufferSize := |packets|);
            }
            lastPlayed := Some(skipped);
          }
        } else if fill < SaturatingSub(target, 2) && target > 2 {
          pace := pace.(driftLow := Low32(pace.driftLow + 1), driftHigh := 0);
          if pace.driftLow >= 3 {
            pace := pace.(driftLow := 0);
          }
        } else {
          pace := pace.(driftHigh := 0, driftLow := 0);
        }
      }
    }

    method Pop(jitterTarget: u32) returns (out: Option<Packet>)
      requires Usable(config)
      modifies this
      ensures (Now(), out) == JitterSpec.Pop(config, old(Now()), jitterTarget)
    {
      if !pace.initialDone && !pace.playoutStarted {
        return None;
      }
      pace := pace.(playoutStarted := true, popCount := Low32(pace.popCount + 1),
                    driftCheck := Low32(pace.driftCheck + 1));
      assert Now() == StartPop(old(Now()));
      SkipIfOverfull();
      ghost var ready := Now();
      assert JitterSpec.Pop(config, old(Now()), jitterTarget) == PlayNext(config, ready, jitterTarget);
      if lastPlayed.None? && packets == map[] {
        return None;
      }
      out := PlayTarget(jitterTarget);
    }

    method SkipIfOverfull()
      requires config.sampleRate > 0
      modifies this
      ensures Now() == SkipOverfull(config, old(Now()))
    {
      if pace.initialDone && Ms(config, |packets|) > Low32(pace.currentDelay * 2) && pace.currentDelay > 0 {
        if packets != map[] {
          var k := FindOldest();
          packets := packets - {k};
          stats := stats.(dropped := stats.dropped + 1, bufferSize := |packets|);
        }
      }
    }

    method FindTarget() returns (target: u16)
      requires lastPlayed.Some? || packets != map[]
      ensures target == Target(Now())
    {
      if lastPlayed.Some? {
        target := Low16(lastPlayed.value + 1);
      } else {
        target := FindOldest();
      }
    }

    method PlayTarget(jitterTarget: u32) returns (out: Option<Packet>)
      requires Usable(config) && (lastPlayed.Some? || packets != map[])
      modifies this
      ensures (Now(), out) == PlayNext(config, old(Now()), jitterTarget)
    {
      var target := FindTarget();
      if target in packets {
        out := Some(packets[target]);
        DeliverTarget(target, jitterTarget);
      } else {
        out := PlayMissing(target);
      }
    }

    method DeliverTarget(target: u16, jitterTarget: u32)
      requires Usable(config) && target in packets
      modifies this
      ensures Now() == Deliver(config, old(Now()), target, jitterTarget)
    {
      hide CheckDrift, DriftSkip, Adapt, Low16;
      packets, lastPlayed := packets - {target}, Some(target);
      stats, pace := stats.(bufferSize := |packets|), pace.(consecutiveMiss := 0);
      if pace.popCount >= 250 {
        pace := pace.(popCount := 0);
        AdaptDelay(jitterTarget);
      }
      CheckClockDrift(target);
    }

    method PlayMissing(target: u16) returns (out: Option<Packet>)
      requires config.sampleRate > 0
      modifies this
      ensures (Now(), out) == Miss(config, old(Now()), target)
    {
      hide CatchUp, Ms, Low32;
      if pace.initialDone && Ms(config, |packets|) < pace.currentDelay / 2 {
        return None;
      }
      var misses := Low32(pace.consecutiveMiss + 1);
      if misses < config.maxWait {
        pace := pace.(consecutiveMiss := misses);
        return None;
      }
      pace, lastPlayed := pace.(consecutiveMiss := 0), Some(target);
      stats := stats.(lost := stats.lost + 1);
      if |packets| > config.maxPackets / 2 {
        out := PlayOldest(target);
      } else {
        out := None;
      }
    }

    /** Catches up: the positions between `target` and the oldest packet are lost. */
    method PlayOldest(target: u16) returns (out: Option<Packet>)
      requires packets != map[]
      modifies this
      ensures (Now(), out) == CatchUp(old(Now()), target)
    {
      var k := FindOldest();
      out := Some(packets[k]);
      packets := packets - {k};
      var skipped := Sub16(k, Low16(target + 1));
      if 0 < skipped < 0x8000 {
        stats := stats.(lost := stats.lost + skipped);
      }
      lastPlayed, stats := Some(k), stats.(bufferSize := |packets|);
    }
  }
}
