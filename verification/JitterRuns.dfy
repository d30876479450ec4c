/** Whole runs of the jitter buffer: playout order, playout accounting and
    conservation of arrivals, across number wrap-around and every way the
    buffer has of dropping a packet or of moving playout on. */
module JitterRuns {
  import opened Words
  import opened JitterSpec

  /** An epoch is opened by a reset, by a marker restart or by the timestamp
      jump of an arriving packet. Before its first delivery the buffer has no
      reference number, so the event that opens the epoch names its `origin`:
      the lowest sender index the epoch may see before its first delivery. */
  datatype Event =
    | Arrive(number: u16, timestamp: u32, payload: seq<byte>, origin: int)
    | Play(jitterTarget: u32)
    | MarkerRestart(origin: int)
    | FullReset(origin: int)

  /** `last` is the unbounded index of the last played number (or, before the
      first delivery, the one below the origin). `delivered`, `pushed` and
      `driftSkips` belong to the current epoch, as does the distance from
      `lostBefore`; `played` and `cleared` count since the last full reset, and
      `allSkips`, the drift skips of all epochs, since the run began. */
  datatype Run = Run(
    s: State, last: int, pushed: set<Packet>, delivered: seq<Packet>, driftSkips: nat, lostBefore: nat,
    played: nat, cleared: nat, allSkips: nat)

  function Start(c: Config, origin: int): Run {
    Run(Fresh(c), origin - 1, {}, [], 0, 0, 0, 0, 0)
  }

  /** The index with low bits `number` that a receiver at `last` must assume. */
  function Label(last: int, number: u16): (i: int)
    ensures Low16(i) == number && last - 0x8000 < i <= last + 0x8000
  {
    last + 0x8000 - (last + 0x8000 - number) % 0x1_0000
  }

  /** No other index in the receiver's window has the same low bits. */
  lemma {:induction false} LabelIsUnique(last: int, i: int)
    requires last - 0x8000 < i <= last + 0x8000
    ensures Label(last, Low16(i)) == i
  {
  }

  predicate OpensEpoch(c: Config, s: State, e: Event) {
    e.Arrive? && !Late(s, e.number) && Jump(c, s, e.timestamp)
  }

  /** The index that an arrival is unwrapped against. */
  function Reference(c: Config, g: Run, e: Event): int
    requires e.Arrive?
  {
    if OpensEpoch(c, g.s, e) then e.origin - 1 else g.last
  }

  function Labelled(c: Config, g: Run, e: Event): Packet
    requires e.Arrive?
  {
    Packet(e.number, e.timestamp, e.payload, Label(Reference(c, g, e), e.number))
  }

  /** Before its first delivery an epoch must see numbers of one half-space only. */
  predicate Admissible(c: Config, g: Run, e: Event) {
    e.Arrive? ==>
      var p := Labelled(c, g, e);
      if OpensEpoch(c, g.s, e) then p.position >= e.origin
      else g.s.lastPlayed.None? ==> p.position > g.last
  }

  function Step(c: Config, g: Run, e: Event): Run
    requires Usable(c)
  {
    match e
    case Arrive(_, _, _, origin) =>
      var p := Labelled(c, g, e);
      var s := Push(c, g.s, p);
      if OpensEpoch(c, g.s, e) then Run(s, origin - 1, {p}, [], 0, 0, 0, 0, g.allSkips)
      else g.(s := s, pushed := g.pushed + {p})
    case Play(jitterTarget) =>
      var (s, r) := Pop(c, g.s, jitterTarget);
      Advance(g, s, r)
    case MarkerRestart(origin) =>
      Run(Restart(g.s), origin - 1, {}, [], 0, g.s.stats.lost, g.played, g.cleared + |g.s.packets|, g.allSkips)
    case FullReset(origin) => Start(c, origin).(allSkips := g.allSkips)
  }

  /** Records a pop that left the buffer in state `s` and returned `out`. A drift
      skip shows in playout standing one number past the packet returned. */
  function Advance(g: Run, s: State, out: Option<Packet>): Run {
    var travelled := if s.lastPlayed.Some? then Sub16(s.lastPlayed.value, Low16(g.last)) else 0;
    if out.None? then g.(s := s, last := g.last + travelled)
    else
      var skipped := if s.lastPlayed != Some(out.value.number) then 1 else 0;
      g.(s := s, last := g.last + travelled, delivered := g.delivered + [out.value], played := g.played + 1,
         driftSkips := g.driftSkips + skipped, allSkips := g.allSkips + skipped)
  }

  /** `runs` are the successive states of a run over `events`, all admissible. */
  ghost predicate IsRun(c: Config, origin: int, events: seq<Event>, runs: seq<Run>)
    requires Usable(c)
  {
    && |runs| == |events| + 1
    && runs[0] == Start(c, origin)
    && forall i :: 0 <= i < |events| ==> Follows(c, runs[i], events[i], runs[i + 1])
  }

  ghost predicate Follows(c: Config, g: Run, e: Event, g1: Run)
    requires Usable(c)
  {
    Admissible(c, g, e) && g1 == Step(c, g, e)
  }

  // ---------- the invariant ----------

  /** Every buffered number lies 1..0x8000 ahead of the last played one. */
  ghost predicate Window(packets: map<u16, Packet>, last: int) {
    forall k :: k in packets ==>
      packets[k].number == k && Low16(packets[k].position) == k
      && last < packets[k].position <= last + 0x8000
  }

  ghost predicate Increasing(ps: seq<Packet>) {
    forall i, j :: 0 <= i < j < |ps| ==> ps[i].position < ps[j].position
  }

  ghost predicate OrderInv(g: Run) {
    && Window(g.s.packets, g.last)
    && (g.s.lastPlayed.Some? <==> g.delivered != [])
    && (g.s.lastPlayed.Some? ==> g.s.lastPlayed.value == Low16(g.last))
    && Increasing(g.delivered)
    && (forall i :: 0 <= i < |g.delivered| ==> g.delivered[i].position <= g.last && g.delivered[i] in g.pushed)
    && (forall k :: k in g.s.packets ==> g.s.packets[k] in g.pushed)
  }

  /** Positions passed since the epoch's first delivery, that one included. */
  function Travelled(g: Run): int {
    if g.delivered == [] then 0 else g.last - g.delivered[0].position + 1
  }

  ghost predicate CountInv(c: Config, g: Run) {
    && Travelled(g) == |g.delivered| + (g.s.stats.lost - g.lostBefore) + g.driftSkips
    && g.s.stats.received == g.played + g.s.stats.dropped + g.s.stats.duplicated + |g.s.packets| + g.cleared
    && g.lostBefore <= g.s.stats.lost
    && g.s.stats.bufferSize == |g.s.packets|
    && |g.s.packets| <= Max(c.maxPackets, 1)
  }

  // ---------- the oldest packet really is the oldest ----------

  lemma {:induction false} BeforeIsEarlier(a: Packet, b: Packet, last: int)
    requires last < a.position <= last + 0x8000 && last < b.position <= last + 0x8000
    requires Low16(a.position) == a.number && Low16(b.position) == b.number
    ensures SequenceBefore(a.number, b.number) <==> a.position < b.position
  {
  }

  lemma {:induction false} ScanIsEarliest(packets: map<u16, Packet>, last: int, k: nat, best: Option<u16>)
    requires Window(packets, last) && k <= 0x1_0000
    requires best.Some? ==> best.value in packets
    requires forall j: u16 :: j in packets && j < k ==>
               best.Some? && packets[best.value].position <= packets[j].position
    ensures var r := Scan(packets.Keys, k, best);
      forall j: u16 :: j in packets ==>
        r.Some? && r.value in packets && packets[r.value].position <= packets[j].position
    decreases 0x1_0000 - k
  {
    if k == 0x1_0000 {
    } else {
      if k in packets && best.Some? {
        BeforeIsEarlier(packets[k], packets[best.value], last);
      }
      ScanIsEarliest(packets, last, k + 1, ScanOne(packets.Keys, k, best));
    }
  }

  lemma {:induction false} OldestIsEarliest(packets: map<u16, Packet>, last: int)
    requires packets != map[] && Window(packets, last)
    ensures forall j :: j in packets && j != Oldest(packets) ==>
      packets[Oldest(packets)].position < packets[j].position
  {
    ScanIsEarliest(packets, last, 0, None);
  }

  // ---------- push ----------

  /** What a push does to the contents and the counters, `r` being the result. */
  ghost predicate PushEffect(c: Config, s: State, p: Packet, r: State) {
    && r.lastPlayed == s.lastPlayed && r.stats.lost == s.stats.lost && r.stats.received == s.stats.received + 1
    && (|| (&& r.packets == s.packets && r.stats.bufferSize == s.stats.bufferSize
            && r.stats.dropped + r.stats.duplicated == s.stats.dropped + s.stats.duplicated + 1)
        || (&& !Late(s, p.number) && p.number !in s.packets
            && (forall k :: k in r.packets && k != p.number ==> k in s.packets && r.packets[k] == s.packets[k])
            && (p.number in r.packets ==> r.packets[p.number] == p)
            && r.stats.duplicated == s.stats.duplicated
            && r.stats.dropped + |r.packets| == s.stats.dropped + |s.packets| + 1
            && r.stats.bufferSize == |r.packets| <= c.maxPackets))
  }

  lemma {:induction false} PushHasEffect(c: Config, s: State, p: Packet)
    requires Usable(c) && (Late(s, p.number) || !Jump(c, s, p.timestamp))
    ensures PushEffect(c, s, p, Push(c, s, p))
  {
    if !Late(s, p.number) && p.number !in s.packets {
      var full := s.packets[p.number := p];
      assert full.Keys == s.packets.Keys + {p.number};
    }
  }

  /** A number that is not late, read in the window around `last`, is ahead of it. */
  lemma {:induction false} NotLateIsAhead(s: State, last: int, number: u16)
    requires s.lastPlayed == Some(Low16(last)) && !Late(s, number)
    ensures Label(last, number) > last
  {
  }

  lemma {:induction false} PushEffectKeeps(c: Config, g: Run, p: Packet, r: State)
    requires OrderInv(g) && CountInv(c, g) && PushEffect(c, g.s, p, r)
    requires p.position == Label(g.last, p.number)
    requires g.s.lastPlayed.None? ==> p.position > g.last
    ensures OrderInv(g.(s := r, pushed := g.pushed + {p})) && CountInv(c, g.(s := r, pushed := g.pushed + {p}))
  {
    if g.s.lastPlayed.Some? && !Late(g.s, p.number) {
      NotLateIsAhead(g.s, g.last, p.number);
    }
  }

  lemma {:induction false} ArriveKeeps(c: Config, g: Run, e: Event)
    requires Usable(c)
    requires OrderInv(g) && CountInv(c, g) && e.Arrive? && Admissible(c, g, e)
    ensures OrderInv(Step(c, g, e)) && CountInv(c, Step(c, g, e))
  {
    var p := Labelled(c, g, e);
    if !OpensEpoch(c, g.s, e) {
      PushHasEffect(c, g.s, p);
      PushEffectKeeps(c, g, p, Push(c, g.s, p));
    }
  }

  // ---------- pop ----------

  lemma {:induction false} RemoveOne(packets: map<u16, Packet>, k: u16)
    requires k in packets
    ensures |packets - {k}| == |packets| - 1
  {
    assert (packets - {k}).Keys == packets.Keys - {k};
  }

  /** What the overfull skip leaves is what it found, less one dropped packet. */
  lemma {:induction false} SkipKeeps(c: Config, g: Run)
    requires Usable(c) && OrderInv(g) && CountInv(c, g)
    ensures var g1 := g.(s := SkipOverfull(c, StartPop(g.s)));
      OrderInv(g1) && CountInv(c, g1)
  {
    var s := StartPop(g.s);
    if SkipOverfull(c, s) != s {
      RemoveOne(s.packets, Oldest(s.packets));
    }
  }

  /** The result `r` of a delivery: playout ends at the target or, after a
      drift skip, one number further on with whatever waited there dropped. */
  ghost predicate DeliverEffect(s: State, target: u16, r: State) {
    && r.stats.lost == s.stats.lost && r.stats.received == s.stats.received && r.stats.duplicated == s.stats.duplicated
    && r.stats.bufferSize == |r.packets| < |s.packets|
    && r.stats.dropped + |r.packets| == s.stats.dropped + |s.packets| - 1
    && (|| (r.lastPlayed == Some(target) && r.packets == s.packets - {target})
        || (r.lastPlayed == Some(Low16(target + 1)) && r.packets == s.packets - {target} - {Low16(target + 1)}))
  }

  lemma {:induction false} DeliverHasEffect(c: Config, s: State, target: u16, jitterTarget: u32)
    requires Usable(c) && target in s.packets
    ensures DeliverEffect(s, target, Deliver(c, s, target, jitterTarget))
  {
    var skipped := Low16(target + 1);
    RemoveOne(s.packets, target);
    var m := s.packets - {target};
    if skipped in m {
      RemoveOne(m, skipped);
    } else {
      assert m - {skipped} == m;
    }
  }

  /** Two indices less than a cycle apart are as far apart as their numbers. */
  lemma {:induction false} Distance(low: int, high: int)
    requires low <= high < low + 0x1_0000
    ensures Sub16(Low16(high), Low16(low)) == high - low
    ensures Low16(Low16(low) + 1) == Low16(low + 1)
  {
    var a, b := low / 0x1_0000, high / 0x1_0000;
    assert low == 0x1_0000 * a + Low16(low) && high == 0x1_0000 * b + Low16(high);
    assert b == a || b == a + 1;
  }

  /** The target of a pop is the packet with the least position, if it is there. */
  lemma {:induction false} TargetIsEarliest(g: Run)
    requires OrderInv(g) && (g.s.lastPlayed.Some? || g.s.packets != map[]) && Target(g.s) in g.s.packets
    ensures var p := g.s.packets[Target(g.s)];
      && (forall k :: k in g.s.packets && k != Target(g.s) ==> g.s.packets[k].position > p.position)
      && (g.s.lastPlayed.Some? ==> p.position == g.last + 1)
  {
    var target := Target(g.s);
    if g.s.lastPlayed.Some? {
      Distance(g.last, g.last + 1);
      Distance(g.last, g.s.packets[target].position);
    } else {
      OldestIsEarliest(g.s.packets, g.last);
    }
  }

  /** Delivering `p` and moving playout to `last` keeps the order, when every
      packet kept lies beyond `last`. */
  lemma {:induction false} OrderAfterDelivery(g: Run, p: Packet, g1: Run)
    requires OrderInv(g) && p.number in g.s.packets && g.s.packets[p.number] == p
    requires g1.delivered == g.delivered + [p] && g1.pushed == g.pushed
    requires p.position <= g1.last && g1.s.lastPlayed == Some(Low16(g1.last))
    requires forall k :: k in g1.s.packets ==>
      k in g.s.packets && g1.s.packets[k] == g.s.packets[k] && g.s.packets[k].position > g1.last
    ensures OrderInv(g1)
  {
  }

  /** The accounts balance when the losses fill the gap before `p`. */
  lemma {:induction false} CountAfterDelivery(c: Config, g: Run, p: Packet, g1: Run)
    requires CountInv(c, g)
    requires g1.delivered == g.delivered + [p] && g1.played == g.played + 1
    requires g1.cleared == g.cleared && g1.lostBefore == g.lostBefore
    requires g1.driftSkips - g.driftSkips == g1.last - p.position
    requires g1.s.stats.lost - g.s.stats.lost == if g.delivered == [] then 0 else p.position - g.last - 1
    requires g1.s.stats.lost >= g.s.stats.lost
    requires g1.s.stats.received == g.s.stats.received && g1.s.stats.duplicated == g.s.stats.duplicated
    requires g1.s.stats.dropped + |g1.s.packets| == g.s.stats.dropped + |g.s.packets| - 1
    requires g1.s.stats.bufferSize == |g1.s.packets| < |g.s.packets|
    ensures CountInv(c, g1)
  {
    assert (g.delivered + [p])[0] == if g.delivered == [] then p else g.delivered[0];
  }

  lemma {:induction false} DeliveryDistance(last: int, position: int)
    requires last < position <= last + 0x8000
    ensures Sub16(Low16(position), Low16(last)) == position - last
    ensures Sub16(Low16(Low16(position) + 1), Low16(last)) == position + 1 - last
    ensures Low16(Low16(position) + 1) == Low16(position + 1) != Low16(position)
  {
    Distance(last, position);
    Distance(last, position + 1);
    Distance(position, position + 1);
  }

  /** Where playout stands after delivering `p`: on `p`, or one past it. */
  function Landing(p: Packet, r: State): int {
    if r.lastPlayed == Some(p.number) then p.position else p.position + 1
  }

  lemma {:induction false} KeptBeyondLanding(s: State, last: int, p: Packet, r: State)
    requires Window(s.packets, last) && p.number in s.packets && s.packets[p.number] == p
    requires DeliverEffect(s, p.number, r)
    requires forall k :: k in s.packets && k != p.number ==> s.packets[k].position > p.position
    ensures forall k :: k in r.packets ==>
      k in s.packets && r.packets[k] == s.packets[k] && s.packets[k].position > Landing(p, r)
  {
    hide Low16, Sub16;
    if r.lastPlayed != Some(p.number) {
      Distance(p.position, p.position + 1);
      forall k | k in r.packets
        ensures s.packets[k].position > p.position + 1
      {
        assert Low16(s.packets[k].position) == k != Low16(p.position + 1);
      }
    }
  }

  lemma {:induction false} AdvanceLands(g: Run, p: Packet, r: State)
    requires g.last < p.position <= g.last + 0x8000 && p.number == Low16(p.position)
    requires r.lastPlayed == Some(p.number) || r.lastPlayed == Some(Low16(p.number + 1))
    ensures var g1 := Advance(g, r, Some(p));
      && g1.last == Landing(p, r) && r.lastPlayed == Some(Low16(g1.last))
      && g1.driftSkips - g.driftSkips == g1.last - p.position
  {
    DeliveryDistance(g.last, p.position);
  }

  ghost predicate AtTarget(g: Run, p: Packet) {
    && (g.s.lastPlayed.Some? || g.s.packets != map[])
    && Target(g.s) in g.s.packets && p == g.s.packets[Target(g.s)]
  }

  lemma {:induction false} DeliveryKeepsOrder(g: Run, p: Packet, r: State)
    requires OrderInv(g) && AtTarget(g, p) && DeliverEffect(g.s, p.number, r)
    ensures OrderInv(Advance(g, r, Some(p)))
  {
    TargetIsEarliest(g);
    AdvanceLands(g, p, r);
    KeptBeyondLanding(g.s, g.last, p, r);
    OrderAfterDelivery(g, p, Advance(g, r, Some(p)));
  }

  lemma {:induction false} DeliveryKeepsCount(c: Config, g: Run, p: Packet, r: State)
    requires OrderInv(g) && CountInv(c, g) && AtTarget(g, p) && DeliverEffect(g.s, p.number, r)
    ensures CountInv(c, Advance(g, r, Some(p)))
  {
    TargetIsEarliest(g);
    AdvanceLands(g, p, r);
    CountAfterDelivery(c, g, p, Advance(g, r, Some(p)));
  }

  /** The result of a miss at `target`, the number after the last played one. */
  ghost predicate MissEffect(s: State, target: u16, r: State, out: Option<Packet>) {
    && r.stats.received == s.stats.received && r.stats.duplicated == s.stats.duplicated
        && r.stats.dropped == s.stats.dropped
    && if out.None? then
         && r.packets == s.packets && r.stats.bufferSize == s.stats.bufferSize
         && (|| (r.lastPlayed == s.lastPlayed && r.stats.lost == s.stats.lost)
             || (r.lastPlayed == Some(target) && r.stats.lost == s.stats.lost + 1))
       else
         && s.packets != map[]
         && var k := Oldest(s.packets);
         && out.value == s.packets[k] && r.lastPlayed == Some(k)
         && r.packets == s.packets - {k}
         && r.stats.bufferSize == |r.packets| == |s.packets| - 1
         && var skipped := Sub16(k, Low16(target + 1));
         r.stats.lost == s.stats.lost + 1 + if skipped < 0x8000 then skipped else 0
  }

  lemma {:induction false} MissHasEffect(c: Config, s: State, target: u16)
    requires Usable(c)
    ensures var (r, out) := Miss(c, s, target); MissEffect(s, target, r, out)
  {
    if s.packets != map[] {
      RemoveOne(s.packets, Oldest(s.packets));
    }
  }

  /** A missing target leaves every buffered packet at least two ahead. */
  lemma {:induction false} MissingIsAhead(g: Run)
    requires OrderInv(g) && g.s.lastPlayed.Some? && Target(g.s) !in g.s.packets
    ensures Target(g.s) == Low16(g.last + 1)
    ensures forall k :: k in g.s.packets ==> g.s.packets[k].position > g.last + 1
  {
    Distance(g.last, g.last + 1);
    forall k | k in g.s.packets
      ensures g.s.packets[k].position != g.last + 1
    {
    }
  }

  lemma {:induction false} WaitKeeps(c: Config, g: Run, r: State)
    requires OrderInv(g) && CountInv(c, g) && g.s.lastPlayed.Some? && Target(g.s) !in g.s.packets
    requires MissEffect(g.s, Target(g.s), r, None)
    ensures var g1 := Advance(g, r, None); OrderInv(g1) && CountInv(c, g1)
  {
    MissingIsAhead(g);
    Distance(g.last, g.last);
    Distance(g.last, g.last + 1);
  }

  /** The catch-up path counts each position it jumps over exactly once. */
  lemma {:induction false} CatchUpLosses(last: int, position: int)
    requires last + 1 < position <= last + 0x8000
    ensures Sub16(Low16(position), Low16(Low16(last + 1) + 1)) == position - last - 2
  {
    Distance(last + 1, last + 2);
    Distance(last + 2, position);
  }

  lemma {:induction false} CatchUpAdvances(g: Run, r: State, p: Packet)
    requires OrderInv(g) && g.s.lastPlayed.Some? && Target(g.s) !in g.s.packets
    requires MissEffect(g.s, Target(g.s), r, Some(p))
    ensures p.number in g.s.packets && g.s.packets[p.number] == p && r.lastPlayed == Some(p.number)
    ensures g.last + Sub16(p.number, Low16(g.last)) == p.position
    ensures r.stats.lost - g.s.stats.lost == p.position - g.last - 1
    ensures forall k :: k in r.packets ==>
      k in g.s.packets && r.packets[k] == g.s.packets[k] && g.s.packets[k].position > p.position
  {
    hide Low16, Sub16;
    MissingIsAhead(g);
    OldestIsEarliest(g.s.packets, g.last);
    Distance(g.last, p.position);
    CatchUpLosses(g.last, p.position);
  }

  lemma {:induction false} CatchUpKeeps(c: Config, g: Run, r: State, p: Packet)
    requires OrderInv(g) && CountInv(c, g) && g.s.lastPlayed.Some? && Target(g.s) !in g.s.packets
    requires MissEffect(g.s, Target(g.s), r, Some(p))
    ensures var g1 := Advance(g, r, Some(p)); OrderInv(g1) && CountInv(c, g1)
  {
    hide Low16, Sub16;
    CatchUpAdvances(g, r, p);
    var g1 := Advance(g, r, Some(p));
    OrderAfterDelivery(g, p, g1);
    CountAfterDelivery(c, g, p, g1);
  }

  lemma {:induction false} PlayNextKeeps(c: Config, g: Run, jitterTarget: u32)
    requires Usable(c) && OrderInv(g) && CountInv(c, g)
    ensures var (r, out) := PlayNext(c, g.s, jitterTarget);
      OrderInv(Advance(g, r, out)) && CountInv(c, Advance(g, r, out))
  {
    if g.s.lastPlayed.Some? || g.s.packets != map[] {
      var target := Target(g.s);
      if target in g.s.packets {
        DeliverHasEffect(c, g.s, target, jitterTarget);
        DeliveryKeepsOrder(g, g.s.packets[target], Deliver(c, g.s, target, jitterTarget));
        DeliveryKeepsCount(c, g, g.s.packets[target], Deliver(c, g.s, target, jitterTarget));
      } else {
        var (r, out) := Miss(c, g.s, target);
        MissHasEffect(c, g.s, target);
        if out.None? {
          WaitKeeps(c, g, r);
        } else {
          CatchUpKeeps(c, g, r, out.value);
        }
      }
    }
  }

  /** What a pop records does not depend on the state it found. */
  lemma {:induction false} AdvanceReplacesState(g: Run, s: State, r: State, out: Option<Packet>)
    ensures Advance(g.(s := s), r, out) == Advance(g, r, out)
  {
  }

  lemma {:induction false} PopKeeps(c: Config, g: Run, jitterTarget: u32)
    requires Usable(c) && OrderInv(g) && CountInv(c, g) && (g.s.pace.initialDone || g.s.pace.playoutStarted)
    ensures var (r, out) := Pop(c, g.s, jitterTarget);
      OrderInv(Advance(g, r, out)) && CountInv(c, Advance(g, r, out))
  {
    var s := SkipOverfull(c, StartPop(g.s));
    var (r, out) := PlayNext(c, s, jitterTarget);
    SkipKeeps(c, g);
    PlayNextKeeps(c, g.(s := s), jitterTarget);
    AdvanceReplacesState(g, s, r, out);
  }

  lemma {:induction false} PlayKeeps(c: Config, g: Run, e: Event)
    requires Usable(c) && OrderInv(g) && CountInv(c, g) && e.Play?
    ensures OrderInv(Step(c, g, e)) && CountInv(c, Step(c, g, e))
  {
    if g.s.pace.initialDone || g.s.pace.playoutStarted {
      PopKeeps(c, g, e.jitterTarget);
    } else {
      Distance(g.last, g.last);
    }
  }

  // ---------- whole runs ----------

  lemma {:induction false} StepKeeps(c: Config, g: Run, e: Event)
    requires Usable(c)
    requires OrderInv(g) && CountInv(c, g) && Admissible(c, g, e)
    ensures OrderInv(Step(c, g, e)) && CountInv(c, Step(c, g, e))
  {
    match e
    case Arrive(_, _, _, _) => ArriveKeeps(c, g, e);
    case Play(_) => PlayKeeps(c, g, e);
    case MarkerRestart(_) =>
    case FullReset(_) =>
  }

  lemma {:induction false} StartHolds(c: Config, origin: int)
    ensures OrderInv(Start(c, origin)) && CountInv(c, Start(c, origin))
  {
  }

  lemma {:induction false} RunKeepsInvariant(c: Config, origin: int, events: seq<Event>, runs: seq<Run>, n: nat)
    requires Usable(c) && IsRun(c, origin, events, runs) && n <= |events|
    ensures OrderInv(runs[n]) && CountInv(c, runs[n])
  {
    hide Step, OrderInv, CountInv;
    if n == 0 {
      StartHolds(c, origin);
    } else {
      RunKeepsInvariant(c, origin, events, runs, n - 1);
      assert Follows(c, runs[n - 1], events[n - 1], runs[n - 1 + 1]);
      StepKeeps(c, runs[n - 1], events[n - 1]);
    }
  }

  /** Playout order: whatever the interleaving, the packets delivered in an
      epoch were pushed in it and come out in strictly increasing sender order,
      hence each at most once, and nothing still buffered is behind them. */
  lemma {:induction false} PlayoutOrder(c: Config, origin: int, events: seq<Event>, runs: seq<Run>, n: nat)
    requires Usable(c) && IsRun(c, origin, events, runs) && n <= |events|
    ensures var g := runs[n];
      && (forall i, j :: 0 <= i < j < |g.delivered| ==> g.delivered[i].position < g.delivered[j].position)
      && (forall i :: 0 <= i < |g.delivered| ==> g.delivered[i] in g.pushed)
      && (forall i, k :: 0 <= i < |g.delivered| && k in g.s.packets ==>
            g.delivered[i].position < g.s.packets[k].position)
  {
    RunKeepsInvariant(c, origin, events, runs, n);
  }

  /** The sender's indices of the arrivals, each within half the number space of
      where playout stands. */
  ghost predicate InReach(c: Config, events: seq<Event>, runs: seq<Run>, indices: seq<int>) {
    && |indices| == |events| < |runs|
    && forall k :: 0 <= k < |events| && events[k].Arrive? ==>
         var at := Reference(c, runs[k], events[k]);
         Low16(indices[k]) == events[k].number && at - 0x8000 < indices[k] <= at + 0x8000
  }

  /** Packet `p` is the one that arrived at event `k`, with its sender's index. */
  ghost predicate CameAt(events: seq<Event>, indices: seq<int>, p: Packet, k: nat) {
    && k < |events| == |indices| && events[k].Arrive?
    && p == Packet(events[k].number, events[k].timestamp, events[k].payload, indices[k])
  }

  lemma {:induction false} StepPushes(c: Config, g: Run, e: Event)
    requires Usable(c)
    ensures Step(c, g, e).pushed <= g.pushed + if e.Arrive? then {Labelled(c, g, e)} else {}
  {
    hide Push, Pop;
  }

  lemma {:induction false} PushedArrived(
    c: Config, origin: int, events: seq<Event>, runs: seq<Run>, indices: seq<int>, n: nat, p: Packet) returns (k: nat)
    requires Usable(c) && IsRun(c, origin, events, runs) && InReach(c, events, runs, indices)
    requires n <= |events| && p in runs[n].pushed
    ensures k < n && CameAt(events, indices, p, k)
  {
    hide Step;
    k := 0;
    if n == 0 {
    } else {
      k := n - 1;
      assert Follows(c, runs[n - 1], events[n - 1], runs[n - 1 + 1]);
      StepPushes(c, runs[n - 1], events[n - 1]);
      if p in runs[n - 1].pushed {
        k := PushedArrived(c, origin, events, runs, indices, n - 1, p);
      } else {
        LabelIsUnique(Reference(c, runs[n - 1], events[n - 1]), indices[n - 1]);
      }
    }
  }

  /** The order is the sender's own: while every arrival is within half the
      number space of where playout stands, the packets delivered in an epoch are
      arrivals of strictly increasing sender index. */
  lemma {:induction false} SenderOrder(
    c: Config, origin: int, events: seq<Event>, runs: seq<Run>, indices: seq<int>, n: nat) returns (sources: seq<nat>)
    requires Usable(c) && IsRun(c, origin, events, runs) && n <= |events| && InReach(c, events, runs, indices)
    ensures |sources| == |runs[n].delivered|
    ensures forall i :: 0 <= i < |sources| ==>
              sources[i] < n && CameAt(events, indices, runs[n].delivered[i], sources[i])
    ensures forall i, j :: 0 <= i < j < |sources| ==> indices[sources[i]] < indices[sources[j]]
  {
    var g := runs[n];
    PlayoutOrder(c, origin, events, runs, n);
    sources := [];
    while |sources| < |g.delivered|
      invariant |sources| <= |g.delivered|
      invariant forall i :: 0 <= i < |sources| ==>
                  sources[i] < n && CameAt(events, indices, g.delivered[i], sources[i])
    {
      var k := PushedArrived(c, origin, events, runs, indices, n, g.delivered[|sources|]);
      sources := sources + [k];
    }
  }

  /** Playout accounting: the distance playout has travelled since the epoch's
      first delivery is exactly the deliveries, losses and drift skips. */
  lemma {:induction false} PlayoutAccounting(c: Config, origin: int, events: seq<Event>, runs: seq<Run>, n: nat)
    requires Usable(c) && IsRun(c, origin, events, runs) && n <= |events|
    ensures var g := runs[n];
      && (g.delivered != [] ==>
            && g.s.lastPlayed == Some(Low16(g.last))
            && g.last - g.delivered[0].position + 1 == |g.delivered| + (g.s.stats.lost - g.lostBefore) + g.driftSkips)
      && (g.delivered == [] ==> g.s.stats.lost == g.lostBefore)
  {
    RunKeepsInvariant(c, origin, events, runs, n);
  }

  /** Conservation of arrivals: since the last reset, every packet received was
      delivered, dropped, recognised as a duplicate, cleared by a marker restart
      or is still buffered; and the buffer never exceeds its bound, which the
      reset after a timestamp jump makes at least one packet. */
  lemma {:induction false} ArrivalConservation(c: Config, origin: int, events: seq<Event>, runs: seq<Run>, n: nat)
    requires Usable(c) && IsRun(c, origin, events, runs) && n <= |events|
    ensures var g := runs[n];
      && g.s.stats.received == g.played + g.s.stats.dropped + g.s.stats.duplicated + |g.s.packets| + g.cleared
      && g.s.stats.bufferSize == |g.s.packets| <= Max(c.maxPackets, 1)
  {
    RunKeepsInvariant(c, origin, events, runs, n);
  }
}
