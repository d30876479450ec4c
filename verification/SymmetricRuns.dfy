/** Whole runs of the symmetric RTP handler: the rate limit, the lock, and the
    evidence behind every learned address. */
module SymmetricRuns {
  import opened Words
  import opened SymmetricLearning

  /** A packet comes with its SSRC through one entry point, without through the
      other. */
  datatype Event =
    | Packet(source: Addr, ssrc: Option<u32>, now: nat)
    | Rearmed
    | ModeSet(mode: Mode)
    | ConfiguredSet(addr: Addr)

  function Step(s: State, e: Event): State {
    match e
    case Packet(source, ssrc, now) =>
      if ssrc.Some? then ProcessWithSsrc(s, source, ssrc.value, now).0 else Process(s, source, now).0
    case Rearmed => Rearm(s)
    case ModeSet(mode) => SetMode(s, mode)
    case ConfiguredSet(addr) => s.(configured := Some(addr))
  }

  function After(s: State, events: seq<Event>): State {
    if events == [] then s else Step(After(s, events[..|events| - 1]), events[|events| - 1])
  }

  // ---------- the lock ----------

  /** Once a change has been refused, no packet, re-arming, change of mode or of
      the configured address changes where media is sent; only a reset does. */
  lemma {:induction false} LockIsForGood(s: State, events: seq<Event>)
    requires s.locked && s.learned.Some?
    ensures var t := After(s, events); t.locked && t.learned == s.learned && Effective(t) == Effective(s)
  {
    if events == [] {
    } else {
      LockIsForGood(s, events[..|events| - 1]);
    }
  }

  /** A refused change locks a handler that has learned an address. */
  lemma {:induction false} RefusalLocks(s: State, source: Addr, now: nat)
    requires !s.locked && Process(s, source, now).0.locked
    ensures var t := Process(s, source, now).0; t.learned.Some? && t.learned == s.learned
  {
  }

  lemma {:induction false} OnlyRefusalLocks(s: State, e: Event)
    requires !s.locked && Step(s, e).locked
    ensures e.Packet? && s.learned.Some? && Step(s, e).learned == s.learned && Step(s, e).configured == s.configured
  {
    if e.Packet? {
      RefusalLocks(if e.ssrc.Some? then NoteSsrc(s, e.ssrc.value) else s, e.source, e.now);
    }
  }

  lemma {:induction false} AfterMore(s: State, events: seq<Event>, m: nat)
    requires m <= |events|
    ensures After(s, events) == After(After(s, events[..m]), events[m..])
  {
    hide Step;
    if m == |events| {
      assert events[..m] == events && events[m..] == [];
    } else {
      var before := events[..|events| - 1];
      AfterMore(s, before, m);
      assert before[..m] == events[..m] && events[m..][..|events| - 1 - m] == before[m..];
    }
  }

  /** The first refusal is final: over any run from an unlocked handler, when event
      `m` is the first to leave it locked, that event is a packet, and from just
      before it on no event changes the effective address. */
  lemma {:induction false} RefusalIsFinal(s: State, events: seq<Event>, m: nat)
    requires m < |events| && !After(s, events[..m]).locked && After(s, events[..m + 1]).locked
    ensures events[m].Packet? && Effective(After(s, events[..m])).Some?
    ensures forall n :: m <= n <= |events| ==> Effective(After(s, events[..n])) == Effective(After(s, events[..m]))
  {
    hide Step;
    assert events[..m + 1][..m] == events[..m] && events[..m + 1][m] == events[m];
    var t := After(s, events[..m]);
    OnlyRefusalLocks(t, events[m]);
    forall n | m < n <= |events|
      ensures Effective(After(s, events[..n])) == Effective(t)
    {
      AfterMore(s, events[..n], m + 1);
      assert events[..n][..m + 1] == events[..m + 1];
      LockIsForGood(After(s, events[..m + 1]), events[..n][m + 1..]);
    }
  }

  // ---------- the rate limit ----------

  /** A change of an already learned address, accepted in Always mode. */
  predicate IsSwitch(s: State, t: State) {
    s.mode == Always && s.learned.Some? && t.learned != s.learned
  }

  /** The times of the accepted switches of a run. */
  function Switches(s: State, events: seq<Event>): seq<nat> {
    if events == [] then []
    else
      var before, e := events[..|events| - 1], events[|events| - 1];
      Switches(s, before) + if e.Packet? && IsSwitch(After(s, before), After(s, events)) then [e.now] else []
  }

  /** Time does not go back. */
  predicate InOrder(events: seq<Event>) {
    forall i, j :: 0 <= i < j < |events| && events[i].Packet? && events[j].Packet? ==> events[i].now <= events[j].now
  }

  predicate Sorted(ts: seq<nat>) {
    forall i, j :: 0 <= i < j < |ts| ==> ts[i] <= ts[j]
  }

  /** Switch `j` lies more than a window after the one `max` before it. */
  predicate Apart(switches: seq<nat>, w: nat, max: nat, j: nat)
    requires max <= j < |switches|
  {
    switches[j - max] + w < switches[j]
  }

  /** The limiter remembers the last switches, and has forgotten only such as lie
      more than a window before the last; no more than `max` fit one window. */
  ghost predicate Limited(times: seq<nat>, switches: seq<nat>, w: nat, max: nat) {
    && Sorted(switches) && |times| <= |switches| && |times| <= max
    && times == switches[|switches| - |times|..]
    && (forall i :: 0 <= i < |switches| - |times| ==> switches[i] + w < switches[|switches| - 1])
    && (forall j :: max <= j < |switches| ==> Apart(switches, w, max, j))
  }

  lemma {:induction false} RetainAll(ts: seq<nat>, start: int)
    requires forall i :: 0 <= i < |ts| ==> ts[i] >= start
    ensures Retain(ts, start) == ts
  {
    if ts == [] {
    } else {
      RetainAll(ts[1..], start);
      assert ts == [ts[0]] + ts[1..];
    }
  }

  lemma {:induction false} RetainIsSuffix(ts: seq<nat>, start: int) returns (d: nat)
    requires Sorted(ts)
    ensures d <= |ts| && Retain(ts, start) == ts[d..] && forall i :: 0 <= i < d ==> ts[i] < start
  {
    d := 0;
    if ts == [] {
    } else {
      if ts[0] >= start {
        RetainAll(ts, start);
      } else {
        var r := RetainIsSuffix(ts[1..], start);
        d := r + 1;
        forall i | 0 < i < d
          ensures ts[i] < start
        {
          assert ts[i] == ts[1..][i - 1];
        }
      }
    }
  }

  lemma {:induction false} PruneIsSuffix(s: State, now: nat) returns (d: nat)
    requires Sorted(s.switchTimes)
    ensures d <= |s.switchTimes| && PrunedTimes(s, now) == s.switchTimes[d..]
    ensures forall i :: 0 <= i < d ==> s.switchTimes[i] + SwitchWindow(s) < now
  {
    if now >= SwitchWindow(s) {
      d := RetainIsSuffix(s.switchTimes, now - SwitchWindow(s));
    } else {
      d := 0;
    }
  }

  /** What the limiter forgets lies more than a window back. */
  lemma {:induction false} Forgotten(switches: seq<nat>, w: nat, m: nat, d: nat, now: nat, i: nat)
    requires d <= m <= |switches| && i < |switches| - (m - d)
    requires forall k :: 0 <= k < |switches| - m ==> switches[k] + w < switches[|switches| - 1]
    requires forall k :: |switches| - m <= k < |switches| - m + d ==> switches[k] + w < now
    requires forall k :: 0 <= k < |switches| ==> switches[k] <= now
    ensures switches[i] + w < now
  {
    var n := |switches|;
    if i < n - m {
      assert switches[i] + w < switches[n - 1] <= now;
    }
  }

  lemma {:induction false} StillSorted(switches: seq<nat>, now: nat)
    requires Sorted(switches) && forall k :: 0 <= k < |switches| ==> switches[k] <= now
    ensures Sorted(switches + [now])
  {
  }

  lemma {:induction false} SuffixGrows(switches: seq<nat>, m: nat, d: nat, now: nat)
    requires d <= m <= |switches|
    ensures switches[|switches| - m..][d..] + [now] == (switches + [now])[|switches| - (m - d)..]
  {
  }

  lemma {:induction false} LimitedSwitch(times: seq<nat>, switches: seq<nat>, w: nat, max: nat, d: nat, now: nat)
    requires Limited(times, switches, w, max) && d <= |times| && |times| - d + 1 <= max
    requires forall i :: 0 <= i < d ==> times[i] + w < now
    requires forall i :: 0 <= i < |switches| ==> switches[i] <= now
    ensures Limited(times[d..] + [now], switches + [now], w, max)
  {
    hide Sorted;
    var n, m := |switches|, |times|;
    var all := switches + [now];
    forall k | n - m <= k < n - m + d
      ensures switches[k] + w < now
    {
      assert times[k - (n - m)] == switches[n - m..][k - (n - m)];
    }
    forall i | 0 <= i < n - (m - d)
      ensures all[i] + w < now
    {
      Forgotten(switches, w, m, d, now, i);
    }
    forall j | max <= j <= n
      ensures Apart(all, w, max, j)
    {
      if j < n {
        assert Apart(switches, w, max, j);
      }
    }
    StillSorted(switches, now);
    SuffixGrows(switches, m, d, now);
  }

  /** What one step does to the limiter: it records exactly the switches. */
  ghost predicate LimiterStep(s: State, t: State, now: nat) {
    && t.limit == s.limit
    && if IsSwitch(s, t)
       then !s.locked && t.switchTimes == PrunedTimes(s, now) + [now] && Low32(|t.switchTimes|) <= s.limit.maxSwitches
       else t.locked || t.switchTimes == s.switchTimes
  }

  lemma {:induction false} AcceptLimits(s: State, source: Addr, now: nat)
    requires !s.locked && s.learned != Some(source)
    ensures LimiterStep(s, AcceptCandidate(s, source, now).0, now)
  {
  }

  lemma {:induction false} ProcessLimits(s: State, source: Addr, now: nat)
    ensures LimiterStep(s, Process(s, source, now).0, now)
  {
    hide Low32, Retain;
    if Active(s) && s.configured != Some(source) && s.learned != Some(source) {
      var s2 := Count(s.(processed := s.processed + 1), source);
      AcceptLimits(s2, source, now);
    }
  }

  lemma {:induction false} StepLimits(s: State, e: Event, now: nat)
    requires e.Packet? ==> now == e.now
    ensures LimiterStep(s, Step(s, e), now) && (!e.Packet? ==> !IsSwitch(s, Step(s, e)))
  {
    if e.Packet? {
      ProcessLimits(if e.ssrc.Some? then NoteSsrc(s, e.ssrc.value) else s, e.source, e.now);
    }
  }

  /** At no time were there more switches in one window than the limit allows. */
  ghost predicate Spaced(switches: seq<nat>, w: nat, max: nat) {
    Sorted(switches) && forall j :: max <= j < |switches| ==> Apart(switches, w, max, j)
  }

  ghost predicate RunLimited(t: State, switches: seq<nat>) {
    && Spaced(switches, SwitchWindow(t), t.limit.maxSwitches)
    && (!t.locked ==> Limited(t.switchTimes, switches, SwitchWindow(t), t.limit.maxSwitches))
  }

  lemma {:induction false} AllowedSwitch(times: seq<nat>, switches: seq<nat>, w: nat, max: nat, d: nat, now: nat)
    requires Limited(times, switches, w, max) && max < U32_MAX && d <= |times|
    requires Low32(|times[d..] + [now]|) <= max
    requires forall i :: 0 <= i < d ==> times[i] + w < now
    requires forall i :: 0 <= i < |switches| ==> switches[i] <= now
    ensures Limited(times[d..] + [now], switches + [now], w, max)
  {
    LimitedSwitch(times, switches, w, max, d, now);
  }

  lemma {:induction false} SwitchKeepsLimit(t: State, t1: State, switches: seq<nat>, now: nat)
    requires RunLimited(t, switches) && t.limit.maxSwitches < U32_MAX && IsSwitch(t, t1) && LimiterStep(t, t1, now)
    requires forall i :: 0 <= i < |switches| ==> switches[i] <= now
    ensures RunLimited(t1, switches + [now])
  {
    var d := PruneIsSuffix(t, now);
    AllowedSwitch(t.switchTimes, switches, SwitchWindow(t), t.limit.maxSwitches, d, now);
  }

  lemma {:induction false} NextSwitch(t: State, switches: seq<nat>, e: Event, now: nat)
    requires RunLimited(t, switches) && t.limit.maxSwitches < U32_MAX
    requires (e.Packet? ==> now == e.now) && forall i :: 0 <= i < |switches| ==> switches[i] <= now
    ensures var t1 := Step(t, e);
      t1.limit == t.limit && RunLimited(t1, switches + if e.Packet? && IsSwitch(t, t1) then [e.now] else [])
  {
    var t1 := Step(t, e);
    StepLimits(t, e, now);
    assert switches + [] == switches;
    if IsSwitch(t, t1) {
      SwitchKeepsLimit(t, t1, switches, now);
    }
  }

  /** The limiter counts in 32 bits, so the greatest limit of all is no limit. */
  lemma {:induction false} RunIsLimited(s: State, events: seq<Event>, until: nat)
    requires !s.locked && s.switchTimes == [] && s.limit.maxSwitches < U32_MAX && InOrder(events)
    requires forall i :: 0 <= i < |events| && events[i].Packet? ==> events[i].now <= until
    ensures var t, sw := After(s, events), Switches(s, events);
      t.limit == s.limit && RunLimited(t, sw) && forall i :: 0 <= i < |sw| ==> sw[i] <= until
  {
    if events == [] {
    } else {
      var before, e := events[..|events| - 1], events[|events| - 1];
      var now := if e.Packet? then e.now else until;
      RunIsLimited(s, before, now);
      NextSwitch(After(s, before), Switches(s, before), e, now);
    }
  }

  lemma {:induction false} FarApart(switches: seq<nat>, w: nat, max: nat, i: nat, j: nat)
    requires Spaced(switches, w, max) && i + max <= j < |switches|
    ensures switches[i] + w < switches[j]
  {
    assert switches[i] <= switches[j - max];
    assert Apart(switches, w, max, j);
  }

  /** The rate limit over whole runs of packets, re-armings, and modes and addresses
      set: however long the run, any two switches accepted in Always mode that lie
      within one window of time of each other, ends included, have at most
      `maxSwitches` switches from the one to the other. */
  lemma {:induction false} RateLimitHolds(s: State, events: seq<Event>, i: nat, j: nat)
    requires !s.locked && s.switchTimes == [] && s.limit.maxSwitches < U32_MAX && InOrder(events)
    requires i <= j < |Switches(s, events)|
    requires Switches(s, events)[j] - Switches(s, events)[i] <= SwitchWindow(s)
    ensures j - i + 1 <= s.limit.maxSwitches
  {
    RunIsLimited(s, events, Latest(events));
    if i + s.limit.maxSwitches <= j {
      FarApart(Switches(s, events), SwitchWindow(s), s.limit.maxSwitches, i, j);
    }
  }

  function Latest(events: seq<Event>): (t: nat)
    ensures forall i :: 0 <= i < |events| && events[i].Packet? ==> events[i].now <= t
  {
    if events == [] then 0
    else
      var e := events[|events| - 1];
      Max(Latest(events[..|events| - 1]), if e.Packet? then e.now else 0)
  }

  // ---------- evidence ----------

  /** The packets of a run that come from neither the configured nor the given
      learned address. */
  function Strangers(events: seq<Event>, configured: Option<Addr>, learned: Option<Addr>): seq<Event> {
    if events == [] then []
    else
      var e := events[|events| - 1];
      Strangers(events[..|events| - 1], configured, learned)
      + if e.Packet? && Some(e.source) != configured && Some(e.source) != learned then [e] else []
  }

  /** The last `n` of `packets` all come from `a`, with no SSRC but `ssrc`. */
  ghost predicate LastFrom(packets: seq<Event>, n: nat, a: Addr, ssrc: Option<u32>) {
    && n <= |packets|
    && forall i :: |packets| - n <= i < |packets| ==>
         packets[i].Packet? && packets[i].source == a && (packets[i].ssrc.Some? ==> packets[i].ssrc == ssrc)
  }

  ghost predicate Evidence(s: State, events: seq<Event>) {
    Active(s) && s.candidate.Some? && s.candidate != s.learned ==>
      0 < s.tally < s.threshold
      && LastFrom(Strangers(events, s.configured, s.learned), s.tally, s.candidate.value, s.ssrc)
  }

  /** What a step must keep and, when it changes the learned address, show. */
  ghost predicate EvidenceStep(s: State, t: State, events: seq<Event>, e: Event) {
    && t.threshold == s.threshold && t.configured == s.configured && t.mode == s.mode
    && Evidence(t, events)
    && (t.learned != s.learned ==>
          t.learned.Some? && e.Packet? && t.learned == Some(e.source)
          && LastFrom(Strangers(events, s.configured, s.learned), s.threshold, e.source, t.ssrc))
  }

  lemma {:induction false} LastGrows(packets: seq<Event>, n: nat, a: Addr, ssrc: Option<u32>, e: Event)
    requires e.Packet? && e.source == a && (e.ssrc.Some? ==> e.ssrc == ssrc)
    requires LastFrom(packets, n, a, ssrc)
    ensures LastFrom(packets + [e], n + 1, a, ssrc)
  {
  }

  /** A packet, its SSRC already noted. */
  lemma {:induction false} PacketEvidence(s: State, events: seq<Event>, e: Event)
    requires s.threshold >= 1 && e.Packet? && (e.ssrc.Some? ==> e.ssrc == s.ssrc) && Evidence(s, events)
    ensures EvidenceStep(s, Process(s, e.source, e.now).0, events + [e], e)
  {
    assert (events + [e])[..|events|] == events;
    if Active(s) && s.configured != Some(e.source) && s.learned != Some(e.source) {
      var strangers := Strangers(events, s.configured, s.learned);
      assert Strangers(events + [e], s.configured, s.learned) == strangers + [e];
      LastGrows(strangers, if s.candidate == Some(e.source) then s.tally else 0, e.source, s.ssrc, e);
      CountedEvidence(s, events + [e], e);
    }
  }

  lemma {:induction false} CountedEvidence(s: State, events: seq<Event>, e: Event)
    requires s.threshold >= 1 && e.Packet? && Active(s) && s.configured != Some(e.source) && s.learned != Some(e.source)
    requires s.candidate == Some(e.source) ==> s.tally < s.threshold
    requires var n := if s.candidate == Some(e.source) then s.tally + 1 else 1;
      LastFrom(Strangers(events, s.configured, s.learned), n, e.source, s.ssrc)
    ensures EvidenceStep(s, Process(s, e.source, e.now).0, events, e)
  {
  }

  lemma {:induction false} EvidenceGrows(s: State, events: seq<Event>, e: Event)
    requires s.threshold >= 1 && (e.Packet? || e.Rearmed?) && Evidence(s, events)
    ensures EvidenceStep(s, Step(s, e), events + [e], e)
  {
    if e.Packet? {
      PacketEvidence(if e.ssrc.Some? then NoteSsrc(s, e.ssrc.value) else s, events, e);
    }
  }

  lemma {:induction false} EvidenceAlways(s: State, events: seq<Event>)
    requires s.threshold >= 1 && s.candidate.None?
    requires forall i :: 0 <= i < |events| ==> events[i].Packet? || events[i].Rearmed?
    ensures var t := After(s, events);
      Evidence(t, events) && t.threshold == s.threshold && t.configured == s.configured && t.mode == s.mode
  {
    if events == [] {
    } else {
      var before, e := events[..|events| - 1], events[|events| - 1];
      EvidenceAlways(s, before);
      EvidenceGrows(After(s, before), before, e);
      assert before + [e] == events;
    }
  }

  lemma {:induction false} LearnedNow(t: State, before: seq<Event>, e: Event, a: Addr)
    requires t.threshold >= 1 && (e.Packet? || e.Rearmed?) && Evidence(t, before)
    requires Step(t, e).learned == Some(a) && t.learned != Some(a)
    ensures LastFrom(Strangers(before + [e], t.configured, t.learned), t.threshold, a, Step(t, e).ssrc)
  {
    EvidenceGrows(t, before, e);
  }

  /** Learning needs evidence: when an event makes `a` the learned address, the
      last `threshold` packets from neither the configured nor the then learned
      address all came from `a`, and all that carried an SSRC carried the same. */
  lemma {:induction false} LearningNeedsEvidence(s: State, events: seq<Event>, a: Addr)
    requires s.threshold >= 1 && s.candidate.None? && events != []
    requires forall i :: 0 <= i < |events| ==> events[i].Packet? || events[i].Rearmed?
    requires After(s, events).learned == Some(a) && After(s, events[..|events| - 1]).learned != Some(a)
    ensures LastFrom(Strangers(events, s.configured, After(s, events[..|events| - 1]).learned), s.threshold, a,
                     After(s, events).ssrc)
  {
    hide Step, LastFrom, Strangers, Evidence;
    var before, e := events[..|events| - 1], events[|events| - 1];
    EvidenceAlways(s, before);
    LearnedNow(After(s, before), before, e, a);
    assert before + [e] == events;
  }
}
