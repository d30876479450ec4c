/** How the jitter buffer paces itself over whole runs: the adaptive delay and the
    drift correction. */
module JitterPacing {
  import opened Words
  import opened JitterSpec
  import opened JitterRuns
  import opened JitterSteps

  function Pops(events: seq<Event>): nat {
    if events == [] then 0 else Pops(events[..|events| - 1]) + if events[|events| - 1].Play? then 1 else 0
  }

  /** The least and the greatest delay: a new buffer starts at its target, inside
      the configured bounds or not. */
  function Least(c: Config): u32 {
    Min(c.minDelay, c.targetDelay)
  }

  function Greatest(c: Config): u32 {
    Max(c.maxDelay, c.targetDelay)
  }

  /** A step up cannot wrap below the least delay. */
  predicate Roomy(c: Config) {
    Greatest(c) <= U32_MAX - 5 || Least(c) == 0
  }

  predicate DelayInRange(c: Config, delay: u32) {
    Roomy(c) ==> Least(c) <= delay <= Greatest(c)
  }

  /** What `pops` pops can have paid for: a skip takes three observations, and an
      observation 500 pops. */
  predicate Paid(driftSkips: nat, pace: Pace, pops: nat) {
    1500 * driftSkips + 500 * pace.driftHigh + pace.driftCheck % 500 <= pops
  }

  /** The same in the middle of a pop, when an observation may be due. */
  predicate Due(driftSkips: nat, pace: Pace, pops: nat) {
    1500 * driftSkips + 500 * pace.driftHigh
    + (if pace.driftCheck % 500 == 0 && pace.driftCheck != 0 then 500 else pace.driftCheck % 500) <= pops
  }

  lemma {:induction false} StartIsDue(driftSkips: nat, s: State, pops: nat)
    requires Paid(driftSkips, s.pace, pops)
    ensures Due(driftSkips, StartPop(s).pace, pops + 1)
  {
    NextRemainder(s.pace.driftCheck);
  }

  lemma {:induction false} NextRemainder(x: u32)
    ensures var y := Low32(x + 1);
      y == 0 || (if y % 500 == 0 then x % 500 == 499 else y % 500 == x % 500 + 1)
  {
  }

  lemma {:induction false} DueIsPaid(driftSkips: nat, pace: Pace, pops: nat)
    requires Due(driftSkips, pace, pops)
    ensures Paid(driftSkips, pace, pops)
  {
  }

  /** One observation pays for itself, and three for a skip. */
  lemma {:induction false} CheckPays(c: Config, n: nat, pace: Pace, driftSkips: nat, pops: nat)
    requires Usable(c) && Due(driftSkips, pace, pops) && pace.driftHigh < 3
    ensures var (next, skip) := CheckDrift(c, n, pace);
      && next.currentDelay == pace.currentDelay && next.driftHigh < 3
      && Paid(if skip then driftSkips + 1 else driftSkips, next, pops)
  {
  }

  lemma {:induction false} SteerStaysInRange(c: Config, level: u32, target: u32, band: u32, pace: Pace)
    requires Usable(c) && DelayInRange(c, pace.currentDelay)
    ensures var r := Steer(c, level, target, band, pace);
      r == pace.(currentDelay := r.currentDelay) && DelayInRange(c, r.currentDelay)
  {
  }

  lemma {:induction false} AdaptStaysInRange(c: Config, n: nat, pace: Pace, jitterTarget: u32)
    requires Usable(c) && DelayInRange(c, pace.currentDelay)
    ensures var r := AdaptEvery250(c, n, pace, jitterTarget);
      r == pace.(currentDelay := r.currentDelay, popCount := r.popCount) && DelayInRange(c, r.currentDelay)
  {
    SteerStaysInRange(c, Ms(c, n), Max(c.minDelay, Min(jitterTarget, c.maxDelay)), Max(Ms(c, 1), 1),
        pace.(popCount := 0));
  }

  /** In the middle of a pop. */
  predicate Pacing(c: Config, pace: Pace) {
    DelayInRange(c, pace.currentDelay) && pace.driftHigh < 3
  }

  ghost predicate Kept(c: Config, g: Run, pops: nat) {
    Pacing(c, g.s.pace) && Paid(g.allSkips, g.s.pace, pops)
  }

  lemma {:induction false} SameDrift(driftSkips: nat, pace: Pace, next: Pace, pops: nat)
    requires Due(driftSkips, pace, pops) && next.driftHigh == pace.driftHigh && next.driftCheck == pace.driftCheck
    ensures Due(driftSkips, next, pops)
  {
  }

  lemma {:induction false} DeliverPays(c: Config, s: State, target: u16, jitterTarget: u32, driftSkips: nat, pops: nat)
    requires Usable(c) && target in s.packets && Pacing(c, s.pace) && Due(driftSkips, s.pace, pops)
    ensures var r := Deliver(c, s, target, jitterTarget);
      && (r.lastPlayed == Some(target) || r.lastPlayed == Some(Low16(target + 1)))
      && Pacing(c, r.pace) && Paid(if r.lastPlayed == Some(target) then driftSkips else driftSkips + 1, r.pace, pops)
  {
    hide Ms, CheckDrift, AdaptEvery250, DelayInRange, Paid, Due;
    var m := s.packets - {target};
    var p0 := s.pace.(consecutiveMiss := 0);
    AdaptStaysInRange(c, |m|, p0, jitterTarget);
    var p := AdaptEvery250(c, |m|, p0, jitterTarget);
    SameDrift(driftSkips, s.pace, p, pops);
    CheckPays(c, |m|, p, driftSkips, pops);
  }

  lemma {:induction false} MissPays(c: Config, s: State, target: u16, driftSkips: nat, pops: nat)
    requires Usable(c) && Pacing(c, s.pace) && Due(driftSkips, s.pace, pops)
    ensures var (r, out) := Miss(c, s, target);
      && Pacing(c, r.pace) && Paid(driftSkips, r.pace, pops)
      && (out.Some? ==>
            s.packets != map[] && r.lastPlayed == Some(Oldest(s.packets)) && out == Some(s.packets[Oldest(s.packets)]))
  {
    DueIsPaid(driftSkips, s.pace, pops);
  }

  /** Every packet is filed under its own number. */
  ghost predicate Filed(packets: map<u16, Packet>) {
    forall k :: k in packets ==> packets[k].number == k
  }

  lemma {:induction false} PlayNextPays(c: Config, g: Run, s: State, jitterTarget: u32, pops: nat)
    requires Usable(c) && Filed(s.packets) && Pacing(c, s.pace) && Due(g.allSkips, s.pace, pops)
    ensures var (r, out) := PlayNext(c, s, jitterTarget); Kept(c, Advance(g, r, out), pops)
  {
    if s.lastPlayed.None? && s.packets == map[] {
      DueIsPaid(g.allSkips, s.pace, pops);
    } else if Target(s) in s.packets {
      DeliverPays(c, s, Target(s), jitterTarget, g.allSkips, pops);
    } else {
      MissPays(c, s, Target(s), g.allSkips, pops);
    }
  }

  lemma {:induction false} PopPays(c: Config, g: Run, jitterTarget: u32, pops: nat)
    requires Usable(c) && Filed(g.s.packets) && Kept(c, g, pops)
    ensures var (r, out) := Pop(c, g.s, jitterTarget); Kept(c, Advance(g, r, out), pops + 1)
  {
    if g.s.pace.initialDone || g.s.pace.playoutStarted {
      StartIsDue(g.allSkips, g.s, pops);
      PlayNextPays(c, g, SkipOverfull(c, StartPop(g.s)), jitterTarget, pops + 1);
    }
  }

  lemma {:induction false} PushPays(c: Config, s: State, p: Packet)
    requires Usable(c)
    ensures var r := Push(c, s, p).pace;
      r == s.pace.(initialDone := r.initialDone) || r == Fresh(c).pace
  {
  }

  lemma {:induction false} StepPays(c: Config, g: Run, e: Event, pops: nat)
    requires Usable(c) && Filed(g.s.packets) && Kept(c, g, pops)
    ensures Kept(c, Step(c, g, e), pops + if e.Play? then 1 else 0)
  {
    hide Push, Pop;
    if e.Play? {
      PopPays(c, g, e.jitterTarget, pops);
    } else if e.Arrive? {
      PushPays(c, g.s, Labelled(c, g, e));
    }
  }

  /** Over any run, across resets and restarts: drift correction skips at most one
      number in 1500 pops, and the delay stays between its least and greatest. */
  lemma {:induction false} PacingHolds(c: Config, origin: int, events: seq<Event>, runs: seq<Run>, n: nat)
    requires Usable(c) && IsRun(c, origin, events, runs) && n <= |events|
    ensures Kept(c, runs[n], Pops(events[..n]))
    ensures 1500 * runs[n].allSkips <= Pops(events[..n])
    ensures Roomy(c) ==> Least(c) <= runs[n].s.pace.currentDelay <= Greatest(c)
  {
    if n == 0 {
    } else {
      PacingHolds(c, origin, events, runs, n - 1);
      RunKeepsInvariant(c, origin, events, runs, n - 1);
      assert Follows(c, runs[n - 1], events[n - 1], runs[n - 1 + 1]);
      StepPays(c, runs[n - 1], events[n - 1], Pops(events[..n - 1]));
      assert events[..n][..n - 1] == events[..n - 1];
    }
  }

  predicate WithinBounds(c: Config, pace: Pace) {
    c.minDelay <= pace.currentDelay <= c.maxDelay
  }

  /** The delay stays within the configured bounds throughout a run, whatever run,
      if and only if the configured target lies within them. */
  lemma {:induction false} DelayStaysInBoundsIff(c: Config, origin: int, events: seq<Event>, runs: seq<Run>)
    requires Usable(c) && (c.maxDelay <= U32_MAX - 5 || c.minDelay == 0) && IsRun(c, origin, events, runs)
    ensures (forall n :: 0 <= n <= |events| ==> WithinBounds(c, runs[n].s.pace))
       <==> c.minDelay <= c.targetDelay <= c.maxDelay
  {
    hide Step;
    if c.minDelay <= c.targetDelay <= c.maxDelay {
      forall n | 0 <= n <= |events|
        ensures WithinBounds(c, runs[n].s.pace)
      {
        PacingHolds(c, origin, events, runs, n);
      }
    } else {
      assert !WithinBounds(c, runs[0].s.pace);
    }
  }

  // ---------- where the delay goes ----------

  /** The wanted delay, as far as the bounds let it. */
  function Goal(c: Config, wish: u32): int {
    if wish < c.minDelay then c.minDelay else if wish > c.maxDelay then c.maxDelay else wish
  }

  /** Half the width of the band around the goal: one packet, at least 1 ms. */
  function Band(c: Config): int
    requires c.sampleRate > 0
  {
    if Millis(c, 1) < 1 then 1 else Millis(c, 1)
  }

  /** One adaptation: up when less is buffered than the goal by more than the band,
      down when more is. */
  lemma {:induction false} AdaptsTowardsGoal(c: Config, n: nat, pace: Pace, wish: u32)
    requires Usable(c) && Millis(c, n) <= U32_MAX && Millis(c, 1) <= U32_MAX && pace.currentDelay + 5 <= U32_MAX
    ensures Adapt(c, n, pace, wish) == pace.(currentDelay :=
      if Millis(c, n) + Band(c) < Goal(c, wish) then Min(pace.currentDelay + 5, c.maxDelay)
      else if Millis(c, n) > Goal(c, wish) + Band(c) then Max(Max(pace.currentDelay - 5, 0), c.minDelay)
      else pace.currentDelay)
  {
    hide Ms, Millis;
    MsIsMillis(c, n);
    MsIsMillis(c, 1);
    assert Low32(pace.currentDelay + 5) == pace.currentDelay + 5;
  }

  /** `k` adaptations, the level and the wish staying the same. */
  function AdaptTimes(c: Config, n: nat, pace: Pace, wish: u32, k: nat): Pace
    requires Usable(c)
  {
    if k == 0 then pace else Adapt(c, n, AdaptTimes(c, n, pace, wish, k - 1), wish)
  }

  /** The delay goes where it should, five milliseconds at a time, to its bound: up
      while the level stays below the band around the goal, down while above, and
      nowhere within it. */
  lemma {:induction false} DelayFollowsLevel(c: Config, n: nat, pace: Pace, wish: u32, k: nat)
    requires Usable(c) && Millis(c, n) <= U32_MAX && Millis(c, 1) <= U32_MAX && k >= 1
    requires pace.currentDelay + 5 <= U32_MAX && c.maxDelay + 5 <= U32_MAX
    ensures AdaptTimes(c, n, pace, wish, k) == pace.(currentDelay :=
      if Millis(c, n) + Band(c) < Goal(c, wish) then Min(pace.currentDelay + 5 * k, c.maxDelay)
      else if Millis(c, n) > Goal(c, wish) + Band(c) then Max(pace.currentDelay - 5 * k, c.minDelay)
      else pace.currentDelay)
  {
    hide Adapt, Millis, Goal, Band;
    var before := AdaptTimes(c, n, pace, wish, k - 1);
    if k > 1 {
      DelayFollowsLevel(c, n, pace, wish, k - 1);
    }
    AdaptsTowardsGoal(c, n, before, wish);
  }

  /** A delivery adapts the delay, or only counts: the first at or after each 250th
      pop since the last adaptation adapts it. */
  lemma {:induction false} AdaptsEvery250(c: Config, n: nat, pace: Pace, wish: u32)
    requires Usable(c)
    ensures AdaptEvery250(c, n, pace, wish)
         == if pace.popCount < 250 then pace else Adapt(c, n, pace, wish).(popCount := 0)
  {
    hide Ms;
  }

  // ---------- the drift skip ----------

  /** How many packets play as long as the target delay. */
  function TargetLevel(c: Config): nat
    requires c.sampleRate > 0
  {
    if Millis(c, 1) < 1 then c.targetDelay else c.targetDelay / Millis(c, 1)
  }

  predicate TooMany(c: Config, n: nat)
    requires c.sampleRate > 0
  {
    n > TargetLevel(c) + 2
  }

  predicate TooFew(c: Config, n: nat)
    requires c.sampleRate > 0
  {
    n + 2 < TargetLevel(c)
  }

  /** The pace and the verdict after the checks that find these levels. */
  function DriftAfter(c: Config, pace: Pace, levels: seq<nat>): (Pace, bool)
    requires c.sampleRate > 0
  {
    if levels == [] then (pace, false)
    else CheckDrift(c, levels[|levels| - 1], DriftAfter(c, pace, levels[..|levels| - 1]).0.(driftCheck := 500))
  }

  /** How many of the last levels, without a break, are too high. */
  function HighRun(c: Config, levels: seq<nat>): nat
    requires c.sampleRate > 0
  {
    if levels == [] || !TooMany(c, levels[|levels| - 1]) then 0 else HighRun(c, levels[..|levels| - 1]) + 1
  }

  function LowRun(c: Config, levels: seq<nat>): nat
    requires c.sampleRate > 0
  {
    if levels == [] || !TooFew(c, levels[|levels| - 1]) then 0 else LowRun(c, levels[..|levels| - 1]) + 1
  }

  lemma {:induction false} CheckSays(c: Config, n: nat, pace: Pace)
    requires Usable(c) && c.samplesPerPacket * 1000 <= U32_MAX && pace.driftCheck == 500
    requires pace.driftHigh < 3 && pace.driftLow < 3
    ensures var (next, skip) := CheckDrift(c, n, pace);
      && next.driftHigh == (if !TooMany(c, n) || pace.driftHigh == 2 then 0 else pace.driftHigh + 1)
      && next.driftLow == (if !TooFew(c, n) || pace.driftLow == 2 then 0 else pace.driftLow + 1)
      && (skip <==> TooMany(c, n) && pace.driftHigh == 2)
      && next == pace.(driftHigh := next.driftHigh, driftLow := next.driftLow)
  {
    hide Millis;
    TargetIsLevel(c);
  }

  lemma {:induction false} TargetIsLevel(c: Config)
    requires c.sampleRate > 0 && c.samplesPerPacket * 1000 <= U32_MAX
    ensures TargetPackets(c) == TargetLevel(c)
  {
    assert 1 * c.samplesPerPacket * 1000 == c.samplesPerPacket * 1000;
    assert Low32(c.samplesPerPacket * 1000) == c.samplesPerPacket * 1000;
  }

  /** A number is skipped for drift exactly at every third check in a row that finds
      more than two packets beyond the target. */
  lemma {:induction false} SkipsEveryThirdHigh(c: Config, pace: Pace, levels: seq<nat>)
    requires Usable(c) && c.samplesPerPacket * 1000 <= U32_MAX && pace.driftHigh == pace.driftLow == 0
    ensures var (t, skip) := DriftAfter(c, pace, levels);
      && t.driftHigh == Third(HighRun(c, levels)) && t.driftLow == Third(LowRun(c, levels))
      && (skip <==> HighRun(c, levels) > 0 && Third(HighRun(c, levels)) == 0)
  {
    hide CheckDrift, TooMany, TooFew, Third;
    if levels == [] {
      NextThird(0);
    } else {
      var before := levels[..|levels| - 1];
      SkipsEveryThirdHigh(c, pace, before);
      NextThird(HighRun(c, before));
      NextThird(LowRun(c, before));
      CheckSays(c, levels[|levels| - 1], DriftAfter(c, pace, before).0.(driftCheck := 500));
    }
  }

  function Third(n: nat): nat {
    n % 3
  }

  lemma {:induction false} NextThird(n: nat)
    ensures Third(0) == 0 && Third(n) < 3 && Third(n + 1) == if Third(n) == 2 then 0 else Third(n) + 1
  {
  }

  /** Only the pops whose count is a multiple of 500 check for drift. */
  lemma {:induction false} ChecksEvery500(c: Config, n: nat, pace: Pace)
    requires c.sampleRate > 0
    ensures pace.driftCheck == 0 || pace.driftCheck % 500 != 0 ==> CheckDrift(c, n, pace) == (pace, false)
    ensures pace.driftCheck != 0 && pace.driftCheck % 500 == 0 ==>
      CheckDrift(c, n, pace).0 == CheckDrift(c, n, pace.(driftCheck := 500)).0.(driftCheck := pace.driftCheck)
      && CheckDrift(c, n, pace).1 == CheckDrift(c, n, pace.(driftCheck := 500)).1
  {
    hide TargetPackets;
  }
}
