/** When the jitter buffer keeps within its configured number of packets. */
module JitterBound {
  import opened Words
  import opened JitterSpec
  import opened JitterRuns

  /** The packet of a timestamp jump is stored whatever the bound. */
  lemma {:induction false} JumpStoresOne(c: Config, s: State, p: Packet)
    requires c.sampleRate > 0 && !Late(s, p.number) && Jump(c, s, p.timestamp)
    ensures |Push(c, s, p).packets| == 1
  {
  }

  /** With a bound of zero only a jump fills an empty buffer. */
  lemma {:induction false} OnlyJumpsFill(c: Config, g: Run, e: Event)
    requires Usable(c) && c.maxPackets == 0 && g.s.packets == map[] && !OpensEpoch(c, g.s, e)
    ensures Step(c, g, e).s.packets == map[]
  {
    match e
    case Arrive(_, _, _, _) => PushesNothing(c, g.s, Labelled(c, g, e));
    case Play(target) => PopsNothing(c, g.s, target);
    case MarkerRestart(_) =>
    case FullReset(_) =>
  }

  lemma {:induction false} PushesNothing(c: Config, s: State, p: Packet)
    requires Usable(c) && c.maxPackets == 0 && s.packets == map[] && (Late(s, p.number) || !Jump(c, s, p.timestamp))
    ensures Push(c, s, p).packets == map[]
  {
  }

  lemma {:induction false} PopsNothing(c: Config, s: State, target: u32)
    requires Usable(c) && s.packets == map[]
    ensures Pop(c, s, target).0.packets == map[]
  {
  }

  ghost predicate JumpAt(c: Config, events: seq<Event>, runs: seq<Run>, i: nat)
    requires Usable(c) && i < |events| < |runs|
  {
    OpensEpoch(c, runs[i].s, events[i])
  }

  /** A jump has opened an epoch since the buffer was last empty. */
  ghost predicate JumpSinceEmpty(c: Config, events: seq<Event>, runs: seq<Run>, n: nat)
    requires Usable(c) && n <= |events| < |runs|
  {
    exists i :: 0 <= i < n && JumpAt(c, events, runs, i) && forall k :: i < k <= n ==> runs[k].s.packets != map[]
  }

  lemma {:induction false} FilledByJump(c: Config, origin: int, events: seq<Event>, runs: seq<Run>, n: nat)
    requires Usable(c) && c.maxPackets == 0 && IsRun(c, origin, events, runs) && n <= |events|
    requires runs[n].s.packets != map[]
    ensures JumpSinceEmpty(c, events, runs, n)
  {
    if n == 0 {
    } else {
      assert Follows(c, runs[n - 1], events[n - 1], runs[n - 1 + 1]);
      if JumpAt(c, events, runs, n - 1) {
      } else {
        if runs[n - 1].s.packets == map[] {
          OnlyJumpsFill(c, runs[n - 1], events[n - 1]);
        }
        FilledByJump(c, origin, events, runs, n - 1);
        var i :| 0 <= i < n - 1 && JumpAt(c, events, runs, i)
          && forall k :: i < k <= n - 1 ==> runs[k].s.packets != map[];
      }
    }
  }

  /** At any point of any run the buffer is within its bound if and only if the
      bound is at least one, or no jump has opened an epoch since the buffer was
      last empty. */
  lemma {:induction false} BoundHoldsIff(c: Config, origin: int, events: seq<Event>, runs: seq<Run>, n: nat)
    requires Usable(c) && IsRun(c, origin, events, runs) && n <= |events|
    ensures |runs[n].s.packets| <= c.maxPackets <==> c.maxPackets >= 1 || !JumpSinceEmpty(c, events, runs, n)
  {
    RunKeepsInvariant(c, origin, events, runs, n);
    if c.maxPackets == 0 && runs[n].s.packets != map[] {
      FilledByJump(c, origin, events, runs, n);
    }
  }

  /** A run is within the bound throughout if and only if the bound is at least one
      or no packet of the run is a jump. */
  lemma {:induction false} RunStaysBoundedIff(c: Config, origin: int, events: seq<Event>, runs: seq<Run>)
    requires Usable(c) && IsRun(c, origin, events, runs)
    ensures (forall n :: 0 <= n <= |events| ==> |runs[n].s.packets| <= c.maxPackets)
       <==> c.maxPackets >= 1 || forall i :: 0 <= i < |events| ==> !JumpAt(c, events, runs, i)
  {
    forall n | 0 <= n <= |events|
      ensures |runs[n].s.packets| <= c.maxPackets <==> c.maxPackets >= 1 || !JumpSinceEmpty(c, events, runs, n)
    {
      BoundHoldsIff(c, origin, events, runs, n);
    }
    forall i | 0 <= i < |events| && JumpAt(c, events, runs, i)
      ensures |runs[i + 1].s.packets| == 1
    {
      assert Follows(c, runs[i], events[i], runs[i + 1]);
      JumpStoresOne(c, runs[i].s, Labelled(c, runs[i], events[i]));
    }
  }
}
