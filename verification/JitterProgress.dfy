/** When a missing packet holds up playout, and for how long. */
module JitterProgress {
  import opened Words
  import opened JitterSpec
  import opened JitterRuns

  predicate Awake(s: State) {
    s.pace.initialDone || s.pace.playoutStarted
  }

  /** The buffer as a pop finds it, an overfull one already relieved. */
  function Seen(c: Config, s: State): State
    requires Usable(c)
  {
    SkipOverfull(c, StartPop(s))
  }

  /** Would a pop now find its target missing? */
  predicate Misses(c: Config, s: State)
    requires Usable(c)
  {
    Awake(s) && s.lastPlayed.Some? && Low16(s.lastPlayed.value + 1) !in Seen(c, s).packets
  }

  /** Would it be held off, the buffer being below half the delay? */
  predicate HeldOff(c: Config, s: State)
    requires Usable(c)
  {
    s.pace.initialDone && Ms(c, |Seen(c, s).packets|) < s.pace.currentDelay / 2
  }

  lemma {:induction false} SeenKeeps(c: Config, s: State)
    requires Usable(c)
    ensures var t := Seen(c, s);
      && t.lastPlayed == s.lastPlayed && t.stats.lost == s.stats.lost
      && t.pace == StartPop(s).pace && (forall k :: k in t.packets ==> k in s.packets && t.packets[k] == s.packets[k])
  {
  }

  // ---------- playout can stall ----------

  function PopAll(c: Config, s: State, targets: seq<u32>): State
    requires Usable(c)
  {
    if targets == [] then s else Pop(c, PopAll(c, s, targets[..|targets| - 1]), targets[|targets| - 1]).0
  }

  /** The next number is missing, and no overfull buffer is relieved. */
  predicate Waiting(c: Config, s: State)
    requires Usable(c)
  {
    && Awake(s) && s.lastPlayed.Some? && Low16(s.lastPlayed.value + 1) !in s.packets
    && (s.packets == map[] || !Overfull(c, |s.packets|, s.pace))
  }

  lemma {:induction false} PopIsMiss(c: Config, s: State, target: u32)
    requires Usable(c) && Waiting(c, s)
    ensures Pop(c, s, target) == Miss(c, StartPop(s), Low16(s.lastPlayed.value + 1))
  {
    hide Ms, Oldest, Miss, Deliver;
    assert SkipOverfull(c, StartPop(s)) == StartPop(s);
  }

  lemma {:induction false} MissCounts(c: Config, s: State, k: u16)
    requires Usable(c) && !HoldOff(c, |s.packets|, s.pace) && s.pace.consecutiveMiss < Max(c.maxWait, 1)
    ensures var (r, out) := Miss(c, s, k);
      if s.pace.consecutiveMiss + 1 < c.maxWait then
        r == s.(pace := s.pace.(consecutiveMiss := s.pace.consecutiveMiss + 1)) && out == None
      else r.stats.lost > s.stats.lost
  {
    hide HoldOff, Oldest;
    assert Low32(s.pace.consecutiveMiss + 1) == s.pace.consecutiveMiss + 1;
  }

  lemma {:induction false} HeldOffPop(c: Config, s: State, target: u32)
    requires Usable(c) && Waiting(c, s) && HoldOff(c, |s.packets|, s.pace)
    ensures Pop(c, s, target) == (StartPop(s), None)
  {
    hide Pop, Ms;
    PopIsMiss(c, s, target);
  }

  lemma {:induction false} WaitingPop(c: Config, s: State, target: u32)
    requires Usable(c) && Waiting(c, s) && s.pace.consecutiveMiss < Max(c.maxWait, 1)
    requires !HoldOff(c, |s.packets|, s.pace)
    ensures var (r, out) := Pop(c, s, target);
      if s.pace.consecutiveMiss + 1 < c.maxWait then
        r == StartPop(s).(pace := StartPop(s).pace.(consecutiveMiss := s.pace.consecutiveMiss + 1)) && out == None
      else r.stats.lost > s.stats.lost
  {
    hide Miss, Pop, Ms;
    PopIsMiss(c, s, target);
    MissCounts(c, StartPop(s), Low16(s.lastPlayed.value + 1));
  }

  /** Neither what is buffered, nor where playout stands, nor any count differs. */
  predicate StandsStill(s: State, t: State) {
    t.packets == s.packets && t.lastPlayed == s.lastPlayed && t.stats == s.stats
  }

  lemma {:induction false} HeldOffForGood(c: Config, s: State, targets: seq<u32>)
    requires Usable(c) && Waiting(c, s) && HoldOff(c, |s.packets|, s.pace)
    ensures var t := PopAll(c, s, targets);
      StandsStill(s, t) && Waiting(c, t) && HoldOff(c, |t.packets|, t.pace)
  {
    hide Ms, Pop;
    if targets == [] {
    } else {
      HeldOffForGood(c, s, targets[..|targets| - 1]);
      HeldOffPop(c, PopAll(c, s, targets[..|targets| - 1]), targets[|targets| - 1]);
    }
  }

  lemma {:induction false} WaitingCounts(c: Config, s: State, targets: seq<u32>)
    requires Usable(c) && Waiting(c, s) && !HoldOff(c, |s.packets|, s.pace)
    requires s.pace.consecutiveMiss + |targets| < Max(c.maxWait, 1)
    ensures var t := PopAll(c, s, targets);
      && StandsStill(s, t) && Waiting(c, t) && !HoldOff(c, |t.packets|, t.pace)
      && t.pace.consecutiveMiss == s.pace.consecutiveMiss + |targets|
  {
    hide Ms, Pop;
    if targets == [] {
    } else {
      WaitingCounts(c, s, targets[..|targets| - 1]);
      WaitingPop(c, PopAll(c, s, targets[..|targets| - 1]), targets[|targets| - 1]);
    }
  }

  lemma {:induction false} WaitEnds(c: Config, s: State, targets: seq<u32>)
    requires Usable(c) && Waiting(c, s) && !HoldOff(c, |s.packets|, s.pace) && targets != []
    requires s.pace.consecutiveMiss + |targets| == Max(c.maxWait, 1)
    ensures PopAll(c, s, targets).stats.lost > s.stats.lost
  {
    hide Ms, Pop;
    WaitingCounts(c, s, targets[..|targets| - 1]);
    WaitingPop(c, PopAll(c, s, targets[..|targets| - 1]), targets[|targets| - 1]);
  }

  /** The stall, exactly: at any point of any run where the next number is missing
      and the buffer is not overfull, no number of pops changes anything if and
      only if the buffer is below half the delay, whatever waits behind. */
  lemma {:induction false} StallsIffHeldOff(c: Config, origin: int, events: seq<Event>, runs: seq<Run>, n: nat)
    requires Usable(c) && IsRun(c, origin, events, runs) && n <= |events| && Waiting(c, runs[n].s)
    ensures (forall targets :: StandsStill(runs[n].s, PopAll(c, runs[n].s, targets)))
       <==> HoldOff(c, |runs[n].s.packets|, runs[n].s.pace)
  {
    hide Ms;
    var s := runs[n].s;
    if HoldOff(c, |s.packets|, s.pace) {
      forall targets
        ensures StandsStill(s, PopAll(c, s, targets))
      {
        HeldOffForGood(c, s, targets);
      }
    } else {
      PatienceHolds(c, origin, events, runs, n);
      var targets: seq<u32> := seq(Max(c.maxWait, 1) - s.pace.consecutiveMiss, _ => 0);
      WaitEnds(c, s, targets);
      assert !StandsStill(s, PopAll(c, s, targets));
    }
  }

  lemma {:induction false} BelowHalfIsNotOverfull(c: Config, s: State)
    requires Usable(c) && s.pace.currentDelay < 0x8000_0000 && HoldOff(c, |s.packets|, s.pace)
    ensures !Overfull(c, |s.packets|, s.pace)
  {
    hide Ms;
  }

  /** The end of a stream after one loss is never played: while the next number is
      missing and what waits behind it lasts less than half the delay, every pop is
      held off, however many there are, and no loss is counted. */
  lemma {:induction false} BufferBelowHalfStalls(c: Config, s: State, targets: seq<u32>)
    requires Usable(c) && s.lastPlayed.Some? && Low16(s.lastPlayed.value + 1) !in s.packets
    requires HoldOff(c, |s.packets|, s.pace) && s.pace.currentDelay < 0x8000_0000
    ensures StandsStill(s, PopAll(c, s, targets))
  {
    BelowHalfIsNotOverfull(c, s);
    HeldOffForGood(c, s, targets);
  }

  /** Everything has been played and the delay is not negligible. */
  predicate RunDry(s: State) {
    s.pace.initialDone && s.packets == map[] && s.lastPlayed.Some? && s.pace.currentDelay >= 2
  }

  lemma {:induction false} NothingLasts(c: Config)
    requires c.sampleRate > 0
    ensures Ms(c, 0) == 0
  {
  }

  /** So it is with a buffer that has run dry, whatever its delay. */
  lemma {:induction false} DryBufferStalls(c: Config, s: State, targets: seq<u32>)
    requires Usable(c) && RunDry(s)
    ensures StandsStill(s, PopAll(c, s, targets))
  {
    NothingLasts(c);
    HeldOffForGood(c, s, targets);
  }

  function DefaultConfig(): Config {
    Config(20, 200, 60, 50, 8000, 160, 2)
  }

  function Sent(n: u16): Packet {
    Packet(n, n * 160, [], n)
  }

  /** A packet that fits is stored and nothing is evicted. */
  lemma {:induction false} PushStores(c: Config, s: State, p: Packet)
    requires Usable(c) && !Late(s, p.number) && !Jump(c, s, p.timestamp) && p.number !in s.packets
    requires |s.packets| < c.maxPackets
    ensures var t := Push(c, s, p);
      && t.packets == s.packets[p.number := p] && t.lastPlayed == s.lastPlayed
      && t.lastTimestamp == NextTimestamp(s.lastTimestamp, p.timestamp)
      && t.pace == CheckBuffering(c, |s.packets| + 1, s.pace)
  {
    hide Ms, Jump, Reordered, NextTimestamp, Oldest;
    var full := s.packets[p.number := p];
    assert full.Keys == s.packets.Keys + {p.number};
    assert |full| == |s.packets| + 1;
  }

  lemma {:induction false} StoresNext(s: State, n: nat, held: map<u16, Packet>)
    requires n < 3 && s.packets == held && |held| == n && n !in held && s.lastPlayed == None
    requires s.lastTimestamp == if n == 0 then None else Some((n - 1) * 160)
    requires s.pace == Fresh(DefaultConfig()).pace
    ensures var t := Push(DefaultConfig(), s, Sent(n));
      && t.packets == held[n := Sent(n)] && t.lastPlayed == None && t.lastTimestamp == Some(n * 160)
      && t.pace == Fresh(DefaultConfig()).pace.(initialDone := n == 2)
  {
    hide Push, Ms;
    PushStores(DefaultConfig(), s, Sent(n));
    DefaultLevel(n + 1);
  }

  lemma {:induction false} DefaultLevel(n: nat)
    requires n <= 3
    ensures Ms(DefaultConfig(), n) == 20 * n
  {
  }

  lemma {:induction false} QuietDelivery(c: Config, s: State, k: u16, target: u32)
    requires Usable(c) && k in s.packets && s.pace.popCount < 250 && 0 < s.pace.driftCheck < 500
    ensures var t := Deliver(c, s, k, target);
      && t.packets == s.packets - {k} && t.lastPlayed == Some(k) && t.pace == s.pace.(consecutiveMiss := 0)
  {
    hide Ms, TargetPackets, Adapt;
  }

  /** A pop that delivers, between adaptations and drift checks. */
  lemma {:induction false} PlainDelivery(s: State, k: u16)
    requires Awake(s) && k in s.packets && |s.packets| <= 3 && Target(s) == k
    requires s.pace.currentDelay == 60 && s.pace.popCount < 249 && s.pace.driftCheck < 499
    ensures var (t, out) := Pop(DefaultConfig(), s, 0);
      && out == Some(s.packets[k]) && t.packets == s.packets - {k} && t.lastPlayed == Some(k)
      && t.pace == StartPop(s).pace.(consecutiveMiss := 0)
  {
    hide Ms, Deliver, Oldest;
    DefaultLevel(|s.packets|);
    var s1 := StartPop(s);
    assert SkipOverfull(DefaultConfig(), s1) == s1;
    assert Target(s1) == Target(s);
    QuietDelivery(DefaultConfig(), s1, k, 0);
  }

  /** The stall is reached with the default configuration by three packets and
      three pops. */
  lemma {:induction false} DefaultBufferRunsDry()
    ensures var c := DefaultConfig();
      var s := Push(c, Push(c, Push(c, Fresh(c), Sent(0)), Sent(1)), Sent(2));
      RunDry(Pop(c, Pop(c, Pop(c, s, 0).0, 0).0, 0).0)
  {
    hide Push, Pop, Oldest;
    var c := DefaultConfig();
    var one, two := map[0 := Sent(0)], map[0 := Sent(0), 1 := Sent(1)];
    var three := two[2 := Sent(2)];
    StoresNext(Fresh(c), 0, map[]);
    StoresNext(Push(c, Fresh(c), Sent(0)), 1, one);
    StoresNext(Push(c, Push(c, Fresh(c), Sent(0)), Sent(1)), 2, two);
    ThreeInWindow(three);
    DryAfterThree(Push(c, Push(c, Push(c, Fresh(c), Sent(0)), Sent(1)), Sent(2)));
  }

  /** `n` pops ago the buffer was full of what the default needs to start. */
  predicate Draining(s: State, n: nat) {
    && s.pace.initialDone && s.pace.currentDelay == 60
    && s.pace.popCount == s.pace.driftCheck == n < 3 && |s.packets| == 3 - n
  }

  lemma {:induction false} DrainOne(s: State, n: nat, k: u16)
    requires Draining(s, n) && k in s.packets && Target(s) == k
    ensures var t := Pop(DefaultConfig(), s, 0).0;
      && t.packets == s.packets - {k} && t.lastPlayed == Some(k) && t.pace.initialDone && t.pace.currentDelay == 60
      && (n < 2 ==> Draining(t, n + 1))
  {
    hide Pop, Oldest, Ms;
    PlainDelivery(s, k);
    RemoveOne(s.packets, k);
  }

  lemma {:induction false} ThreeInWindow(three: map<u16, Packet>)
    requires three == map[0 := Sent(0), 1 := Sent(1), 2 := Sent(2)]
    ensures Window(three, -1) && |three| == 3 && Oldest(three) == 0
  {
    assert three.Keys == {0, 1, 2};
    forall k | k in three
      ensures three[k].number == k && three[k].position == k as int
    {
    }
    OldestIsEarliest(three, -1);
  }

  lemma {:induction false} DryAfterThree(s: State)
    requires Draining(s, 0) && s.packets.Keys == {0, 1, 2} && s.lastPlayed == None && Oldest(s.packets) == 0
    ensures var c := DefaultConfig(); RunDry(Pop(c, Pop(c, Pop(c, s, 0).0, 0).0, 0).0)
  {
    hide Pop, Oldest;
    DrainOne(s, 0, 0);
    var s1 := Pop(DefaultConfig(), s, 0).0;
    DrainOne(s1, 1, 1);
    var s2 := Pop(DefaultConfig(), s1, 0).0;
    DrainOne(s2, 2, 2);
  }

  /** Playout stalls with the default configuration: three packets, three pops, and
      no pop after that moves it or counts a loss. */
  lemma {:induction false} DefaultBufferStalls(targets: seq<u32>)
    ensures var c := DefaultConfig();
      var s := Push(c, Push(c, Push(c, Fresh(c), Sent(0)), Sent(1)), Sent(2));
      var dry := Pop(c, Pop(c, Pop(c, s, 0).0, 0).0, 0).0;
      var t := PopAll(c, dry, targets);
      dry.lastPlayed.Some? && StandsStill(dry, t)
  {
    hide Push, Pop;
    DefaultBufferRunsDry();
    var c := DefaultConfig();
    var s := Push(c, Push(c, Push(c, Fresh(c), Sent(0)), Sent(1)), Sent(2));
    DryBufferStalls(c, Pop(c, Pop(c, Pop(c, s, 0).0, 0).0, 0).0, targets);
  }

  // ---------- otherwise it goes on ----------

  lemma {:induction false} CatchUpLands(s: State, k: u16)
    requires s.packets != map[]
    ensures CatchUp(s, k).0.lastPlayed == Some(Oldest(s.packets)) && CatchUp(s, k).0.pace == s.pace
  {
    hide Oldest;
  }

  lemma {:induction false} MissTakes(c: Config, s: State, k: u16)
    requires c.sampleRate > 0 && s.pace.consecutiveMiss < Max(c.maxWait, 1)
    ensures var r := Miss(c, s, k).0;
      if HoldOff(c, |s.packets|, s.pace) then r == s
      else if s.pace.consecutiveMiss + 1 < c.maxWait then
        r.lastPlayed == s.lastPlayed && r.pace.consecutiveMiss == s.pace.consecutiveMiss + 1
      else
        && r.pace.consecutiveMiss == 0
        && (r.lastPlayed == Some(k) || (s.packets != map[] && r.lastPlayed == Some(Oldest(s.packets))))
  {
    hide HoldOff, Oldest, CatchUp;
    assert Low32(s.pace.consecutiveMiss + 1) == s.pace.consecutiveMiss + 1;
    if s.packets != map[] {
      var lost := s.(pace := s.pace.(consecutiveMiss := 0), lastPlayed := Some(k),
                     stats := s.stats.(lost := s.stats.lost + 1));
      CatchUpLands(lost, k);
    }
  }

  lemma {:induction false} PopMisses(c: Config, s: State, target: u32)
    requires Usable(c) && Misses(c, s)
    ensures Pop(c, s, target) == Miss(c, Seen(c, s), Low16(s.lastPlayed.value + 1))
    ensures HeldOff(c, s) == HoldOff(c, |Seen(c, s).packets|, Seen(c, s).pace)
  {
    hide Ms, Oldest, Miss, Deliver;
    SeenKeeps(c, s);
  }

  lemma {:induction false} MissCounter(c: Config, s: State, target: u32)
    requires Usable(c) && Misses(c, s) && s.pace.consecutiveMiss < Max(c.maxWait, 1)
    ensures var r := Pop(c, s, target).0;
      if HeldOff(c, s) then r.lastPlayed == s.lastPlayed && r.pace.consecutiveMiss == s.pace.consecutiveMiss
      else if s.pace.consecutiveMiss + 1 < c.maxWait then
        r.lastPlayed == s.lastPlayed && r.pace.consecutiveMiss == s.pace.consecutiveMiss + 1
      else
        && r.pace.consecutiveMiss == 0
        && (r.lastPlayed == Some(Low16(s.lastPlayed.value + 1))
            || (Seen(c, s).packets != map[] && r.lastPlayed == Some(Oldest(Seen(c, s).packets))))
  {
    hide Ms, Oldest, Miss, HoldOff, HeldOff, SkipOverfull, Pop;
    SeenKeeps(c, s);
    PopMisses(c, s, target);
    MissTakes(c, Seen(c, s), Low16(s.lastPlayed.value + 1));
  }

  /** The last played number is never in the buffer. */
  lemma {:induction false} LastIsGone(g: Run, k: u16)
    requires OrderInv(g) && g.s.lastPlayed.Some? && k in g.s.packets
    ensures g.s.lastPlayed != Some(k)
  {
    DeliveryDistance(g.last, g.s.packets[k].position);
  }

  lemma {:induction false} MissMovesIff(c: Config, g: Run, target: u32)
    requires Usable(c) && OrderInv(g) && Misses(c, g.s) && g.s.pace.consecutiveMiss < Max(c.maxWait, 1)
    ensures Pop(c, g.s, target).0.lastPlayed != g.s.lastPlayed
       <==> !HeldOff(c, g.s) && g.s.pace.consecutiveMiss + 1 >= c.maxWait
  {
    hide Ms, TargetPackets;
    var t := Seen(c, g.s);
    SeenKeeps(c, g.s);
    MissCounter(c, g.s, target);
    if t.packets != map[] {
      LastIsGone(g, Oldest(t.packets));
    }
  }

  /** A push that does not reset leaves the count of misses alone. */
  lemma {:induction false} PushKeepsCount(c: Config, s: State, p: Packet)
    requires Usable(c)
    ensures var r := Push(c, s, p);
      if !Late(s, p.number) && Jump(c, s, p.timestamp) then r.lastPlayed == None && r.pace.consecutiveMiss == 0
      else r.lastPlayed == s.lastPlayed && r.pace.consecutiveMiss == s.pace.consecutiveMiss
  {
  }

  lemma {:induction false} NextDiffers(x: u16)
    ensures Low16(x + 1) != x && Low16(Low16(x + 1) + 1) != x
  {
  }

  /** A pop that does not miss changes nothing here, or delivers. */
  lemma {:induction false} HitClearsCount(c: Config, s: State, target: u32)
    requires Usable(c) && !Misses(c, s)
    ensures var r := Pop(c, s, target).0;
      || (r.lastPlayed == s.lastPlayed && r.pace.consecutiveMiss == s.pace.consecutiveMiss)
      || (r.lastPlayed != s.lastPlayed && r.pace.consecutiveMiss == 0)
  {
    hide Ms, TargetPackets, Deliver, SkipOverfull, Oldest;
    SeenKeeps(c, s);
    var t := Seen(c, s);
    if Awake(s) && (t.lastPlayed.Some? || t.packets != map[]) {
      DeliverHasEffect(c, t, Target(t), target);
      DeliverClearsCount(c, t, Target(t), target);
      if t.lastPlayed.Some? {
        NextDiffers(t.lastPlayed.value);
      }
    }
  }

  lemma {:induction false} AdaptKeepsCount(c: Config, n: nat, pace: Pace, target: u32)
    requires Usable(c)
    ensures AdaptEvery250(c, n, pace, target).consecutiveMiss == pace.consecutiveMiss
  {
    hide Ms;
  }

  lemma {:induction false} DriftKeepsCount(c: Config, n: nat, pace: Pace)
    requires Usable(c)
    ensures CheckDrift(c, n, pace).0.consecutiveMiss == pace.consecutiveMiss
  {
    hide TargetPackets;
  }

  lemma {:induction false} DeliverClearsCount(c: Config, s: State, k: u16, target: u32)
    requires Usable(c) && k in s.packets
    ensures Deliver(c, s, k, target).pace.consecutiveMiss == 0
  {
    hide AdaptEvery250, CheckDrift;
    var m := s.packets - {k};
    var p := s.pace.(consecutiveMiss := 0);
    AdaptKeepsCount(c, |m|, p, target);
    DriftKeepsCount(c, |m|, AdaptEvery250(c, |m|, p, target));
  }

  lemma {:induction false} StepKeepsPatience(c: Config, g: Run, e: Event)
    requires Usable(c) && g.s.pace.consecutiveMiss < Max(c.maxWait, 1)
    ensures Step(c, g, e).s.pace.consecutiveMiss < Max(c.maxWait, 1)
  {
    hide Ms, TargetPackets;
    match e
    case Arrive(_, _, _, _) => PushKeepsCount(c, g.s, Labelled(c, g, e));
    case Play(target) =>
      if Misses(c, g.s) {
        MissCounter(c, g.s, target);
      } else {
        HitClearsCount(c, g.s, target);
      }
    case MarkerRestart(_) =>
    case FullReset(_) =>
  }

  lemma {:induction false} PatienceHolds(c: Config, origin: int, events: seq<Event>, runs: seq<Run>, n: nat)
    requires Usable(c) && IsRun(c, origin, events, runs) && n <= |events|
    ensures runs[n].s.pace.consecutiveMiss < Max(c.maxWait, 1)
  {
    if n == 0 {
    } else {
      PatienceHolds(c, origin, events, runs, n - 1);
      assert Follows(c, runs[n - 1], events[n - 1], runs[n - 1 + 1]);
      StepKeepsPatience(c, runs[n - 1], events[n - 1]);
    }
  }

  /** At any point of any run: a pop that finds its target missing moves playout if
      and only if it is not held off and completes the configured count. */
  lemma {:induction false} MissMovesPlayoutIff(
    c: Config, origin: int, events: seq<Event>, runs: seq<Run>, n: nat, target: u32)
    requires Usable(c) && IsRun(c, origin, events, runs) && n <= |events| && Misses(c, runs[n].s)
    ensures Pop(c, runs[n].s, target).0.lastPlayed != runs[n].s.lastPlayed
       <==> !HeldOff(c, runs[n].s) && runs[n].s.pace.consecutiveMiss + 1 >= c.maxWait
  {
    PatienceHolds(c, origin, events, runs, n);
    RunKeepsInvariant(c, origin, events, runs, n);
    MissMovesIff(c, runs[n], target);
  }

  predicate CountedMiss(c: Config, g: Run, e: Event)
    requires Usable(c)
  {
    e.Play? && Misses(c, g.s) && !HeldOff(c, g.s)
  }

  function CountTrue(flags: seq<bool>, i: nat, j: nat): nat
    requires i <= j <= |flags|
    decreases j
  {
    if i == j then 0 else CountTrue(flags, i, j - 1) + if flags[j - 1] then 1 else 0
  }

  ghost function MissFlags(c: Config, events: seq<Event>, runs: seq<Run>): (flags: seq<bool>)
    requires Usable(c) && |runs| == |events| + 1
    ensures |flags| == |events|
  {
    seq(|events|, k requires 0 <= k < |events| => CountedMiss(c, runs[k], events[k]))
  }

  /** The pops among events `i` to `j` that miss and are not held off. */
  ghost function CountedMisses(c: Config, events: seq<Event>, runs: seq<Run>, i: nat, j: nat): nat
    requires Usable(c) && i <= j <= |events| && |runs| == |events| + 1
  {
    CountTrue(MissFlags(c, events, runs), i, j)
  }

  lemma {:induction false} CountsAddUp(values: seq<int>, flags: seq<bool>, i: nat, j: nat)
    requires i <= j <= |flags| < |values|
    requires forall k :: i <= k < j ==> values[k + 1] == values[k] + if flags[k] then 1 else 0
    ensures values[i] + CountTrue(flags, i, j) == values[j]
    decreases j
  {
    if i == j {
    } else {
      CountsAddUp(values, flags, i, j - 1);
      assert values[j - 1 + 1] == values[j - 1] + if flags[j - 1] then 1 else 0;
    }
  }

  lemma {:induction false} UnmovedPopCounts(c: Config, g: Run, target: u32)
    requires Usable(c) && OrderInv(g) && g.s.pace.consecutiveMiss < Max(c.maxWait, 1)
    requires g.s.lastPlayed.Some? && Pop(c, g.s, target).0.lastPlayed == g.s.lastPlayed
    ensures Pop(c, g.s, target).0.pace.consecutiveMiss
         == g.s.pace.consecutiveMiss + if Misses(c, g.s) && !HeldOff(c, g.s) then 1 else 0
  {
    hide Ms, TargetPackets;
    if Misses(c, g.s) {
      MissMovesIff(c, g, target);
      MissCounter(c, g.s, target);
    } else {
      HitClearsCount(c, g.s, target);
    }
  }

  lemma {:induction false} UnmovedCounts(c: Config, g: Run, e: Event)
    requires Usable(c) && OrderInv(g) && g.s.pace.consecutiveMiss < Max(c.maxWait, 1)
    requires g.s.lastPlayed.Some? && Step(c, g, e).s.lastPlayed == g.s.lastPlayed
    ensures Step(c, g, e).s.pace.consecutiveMiss == g.s.pace.consecutiveMiss + if CountedMiss(c, g, e) then 1 else 0
  {
    hide Ms, TargetPackets;
    if e.Arrive? {
      PushKeepsCount(c, g.s, Labelled(c, g, e));
    } else if e.Play? {
      UnmovedPopCounts(c, g, e.jitterTarget);
    }
  }

  ghost predicate Unmoved(runs: seq<Run>, i: nat, j: nat) {
    && i <= j < |runs|
    && forall k :: i <= k <= j ==> runs[k].s.lastPlayed.Some? && runs[k].s.lastPlayed == runs[i].s.lastPlayed
  }

  lemma {:induction false} WaitStep(c: Config, origin: int, events: seq<Event>, runs: seq<Run>, n: nat)
    requires Usable(c) && IsRun(c, origin, events, runs) && n < |events|
    requires runs[n].s.lastPlayed.Some? && runs[n + 1].s.lastPlayed == runs[n].s.lastPlayed
    ensures runs[n + 1].s.pace.consecutiveMiss
         == runs[n].s.pace.consecutiveMiss + if CountedMiss(c, runs[n], events[n]) then 1 else 0
  {
    hide Ms, TargetPackets;
    PatienceHolds(c, origin, events, runs, n);
    RunKeepsInvariant(c, origin, events, runs, n);
    assert Follows(c, runs[n], events[n], runs[n + 1]);
    UnmovedCounts(c, runs[n], events[n]);
  }

  lemma {:induction false} WaitsAreCounted(c: Config, origin: int, events: seq<Event>, runs: seq<Run>, i: nat, j: nat)
    requires Usable(c) && IsRun(c, origin, events, runs) && Unmoved(runs, i, j)
    ensures runs[i].s.pace.consecutiveMiss + CountedMisses(c, events, runs, i, j) == runs[j].s.pace.consecutiveMiss
  {
    var values := seq(|runs|, k requires 0 <= k < |runs| => runs[k].s.pace.consecutiveMiss as int);
    var flags := MissFlags(c, events, runs);
    forall k | i <= k < j
      ensures values[k + 1] == values[k] + if flags[k] then 1 else 0
    {
      assert runs[k + 1].s.lastPlayed == runs[k].s.lastPlayed;
      WaitStep(c, origin, events, runs, k);
    }
    CountsAddUp(values, flags, i, j);
  }

  /** Progress: while playout stays where it is, fewer pops than configured (and
      than one) can miss without being held off, whatever arrives in between and
      however many pops are held off; so the one that reaches the number moves it. */
  lemma {:induction false} WaitIsBounded(c: Config, origin: int, events: seq<Event>, runs: seq<Run>, i: nat, j: nat)
    requires Usable(c) && IsRun(c, origin, events, runs) && Unmoved(runs, i, j)
    ensures CountedMisses(c, events, runs, i, j) < Max(c.maxWait, 1)
  {
    WaitsAreCounted(c, origin, events, runs, i, j);
    PatienceHolds(c, origin, events, runs, j);
  }
}
