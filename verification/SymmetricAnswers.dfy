/** Exactly when an address is learned, refused, and answered, over whole runs. */
module SymmetricAnswers {
  import opened Words
  import opened SymmetricLearning
  import opened SymmetricRuns

  /** The answer to a packet: has it changed the learned address? */
  function Answer(s: State, e: Event): bool
    requires e.Packet?
  {
    if e.ssrc.Some? then ProcessWithSsrc(s, e.source, e.ssrc.value, e.now).1 else Process(s, e.source, e.now).1
  }

  /** Does the handler take note of new addresses at all? In Once mode it does so
      until its window is used up. */
  predicate Learning(s: State) {
    !s.locked && (s.mode == Always || (s.mode == Once && s.remaining >= 1))
  }

  /** A packet from an address neither configured nor learned. */
  predicate IsStranger(s: State, e: Event) {
    e.Packet? && Learning(s) && s.configured != Some(e.source) && s.learned != Some(e.source)
  }

  // ---------- who has been heard ----------

  /** The SSRC of the last packet that carried one. */
  function LastSsrc(from: Option<u32>, events: seq<Event>): Option<u32> {
    if events == [] then from
    else
      var e := events[|events| - 1];
      if e.Packet? && e.ssrc.Some? then e.ssrc else LastSsrc(from, events[..|events| - 1])
  }

  predicate ChangesSsrc(from: Option<u32>, events: seq<Event>, e: Event) {
    e.Packet? && e.ssrc.Some? && LastSsrc(from, events).Some? && LastSsrc(from, events) != e.ssrc
  }

  /** The strangers heard from since the last re-arming or change of SSRC. */
  function Heard(s: State, events: seq<Event>): seq<Addr> {
    if events == [] then []
    else
      var before, e := events[..|events| - 1], events[|events| - 1];
      var kept := if e.Rearmed? || ChangesSsrc(s.ssrc, before, e) then [] else Heard(s, before);
      if IsStranger(After(s, before), e) then kept + [e.source] else kept
  }

  /** How many of the last in a row are `a`. */
  function Streak(heard: seq<Addr>, a: Addr): nat {
    if heard == [] || heard[|heard| - 1] != a then 0 else Streak(heard[..|heard| - 1], a) + 1
  }

  /** The candidate is who was heard last, and its tally that streak. */
  ghost predicate Counted(t: State, heard: seq<Addr>, ssrc: Option<u32>) {
    && t.ssrc == ssrc
    && if heard == [] then t.candidate == None
       else
         var a := heard[|heard| - 1];
         t.candidate == Some(a) && t.tally == Streak(heard, a)
  }

  /** Whether a change of address is allowed now. */
  predicate Allowed(s: State, now: nat) {
    s.learned.None? || s.mode != Always || Low32(|PrunedTimes(s, now)| + 1) <= s.limit.maxSwitches
  }

  /** One packet, its SSRC already noted; `count` is what its address then counts. */
  ghost predicate Outcome(s: State, source: Addr, now: nat, t: State, answer: bool) {
    var stranger := Learning(s) && s.configured != Some(source) && s.learned != Some(source);
    var count := if s.candidate == Some(source) then s.tally + 1 else 1;
    var due := stranger && count >= s.threshold;
    && (answer <==> due && Allowed(s, now))
    && t.learned == (if due && Allowed(s, now) then Some(source) else s.learned)
    && (t.locked <==> s.locked || (due && !Allowed(s, now)))
    && (if stranger then t.candidate == Some(source) && t.tally == count
        else t.candidate == s.candidate && t.tally == s.tally)
    && t.ssrc == s.ssrc && t.configured == s.configured && t.threshold == s.threshold && t.mode == s.mode
  }

  lemma {:induction false} PacketOutcome(s: State, source: Addr, now: nat)
    ensures var (t, answer) := Process(s, source, now); Outcome(s, source, now, t, answer)
  {
    hide Low32, Retain;
    var counted := Count(s.(processed := s.processed + 1), source);
    assert |PrunedTimes(counted, now) + [now]| == |PrunedTimes(s, now)| + 1;
  }

  lemma {:induction false} StreakGrows(heard: seq<Addr>, a: Addr)
    ensures Streak(heard + [a], a)
         == if heard != [] && heard[|heard| - 1] == a then Streak(heard, a) + 1 else 1
  {
    assert (heard + [a])[..|heard|] == heard;
  }

  lemma {:induction false} StepCounts(s: State, before: seq<Event>, e: Event)
    requires Counted(After(s, before), Heard(s, before), LastSsrc(s.ssrc, before))
    ensures Counted(After(s, before + [e]), Heard(s, before + [e]), LastSsrc(s.ssrc, before + [e]))
  {
    hide Process, Streak, Low32, Retain;
    var t := After(s, before);
    assert (before + [e])[..|before|] == before;
    if e.Packet? {
      var noted := if e.ssrc.Some? then NoteSsrc(t, e.ssrc.value) else t;
      PacketOutcome(noted, e.source, e.now);
      StreakGrows(if ChangesSsrc(s.ssrc, before, e) then [] else Heard(s, before), e.source);
    }
  }

  lemma {:induction false} RunCounts(s: State, events: seq<Event>)
    requires s.candidate.None?
    ensures Counted(After(s, events), Heard(s, events), LastSsrc(s.ssrc, events))
  {
    hide After, Heard, LastSsrc, Counted;
    if events == [] {
      NothingHeard(s);
    } else {
      var before, e := events[..|events| - 1], events[|events| - 1];
      RunCounts(s, before);
      StepCounts(s, before, e);
      assert before + [e] == events;
    }
  }

  lemma {:induction false} NothingHeard(s: State)
    requires s.candidate.None?
    ensures Counted(After(s, []), Heard(s, []), LastSsrc(s.ssrc, []))
  {
  }

  // ---------- the limit ----------

  /** How many of the times lie no further back than a window. */
  function Recent(times: seq<nat>, w: nat, now: nat): nat {
    if times == [] then 0
    else Recent(times[..|times| - 1], w, now) + if times[|times| - 1] + w >= now then 1 else 0
  }

  lemma {:induction false} RecentAppend(a: seq<nat>, b: seq<nat>, w: nat, now: nat)
    ensures Recent(a + b, w, now) == Recent(a, w, now) + Recent(b, w, now)
  {
    if b == [] {
      assert a + b == a;
    } else {
      assert (a + b)[..|a + b| - 1] == a + b[..|b| - 1];
      RecentAppend(a, b[..|b| - 1], w, now);
    }
  }

  lemma {:induction false} NoneRecent(times: seq<nat>, w: nat, now: nat)
    requires forall i :: 0 <= i < |times| ==> times[i] + w < now
    ensures Recent(times, w, now) == 0
  {
    if times == [] {
    } else {
      NoneRecent(times[..|times| - 1], w, now);
    }
  }

  lemma {:induction false} RetainCounts(times: seq<nat>, w: nat, now: nat)
    ensures |Retain(times, now - w)| == Recent(times, w, now)
  {
    if times == [] {
    } else {
      RetainCounts(times[1..], w, now);
      RecentAppend([times[0]], times[1..], w, now);
      assert [times[0]] + times[1..] == times && [times[0]][..0] == [];
    }
  }

  lemma {:induction false} AllRecent(times: seq<nat>, w: nat, now: nat)
    requires now <= w
    ensures Recent(times, w, now) == |times|
  {
    if times == [] {
    } else {
      AllRecent(times[..|times| - 1], w, now);
    }
  }

  lemma {:induction false} PrunedCount(s: State, now: nat)
    ensures |PrunedTimes(s, now)| == Recent(s.switchTimes, SwitchWindow(s), now)
  {
    if now >= SwitchWindow(s) {
      RetainCounts(s.switchTimes, SwitchWindow(s), now);
    } else {
      AllRecent(s.switchTimes, SwitchWindow(s), now);
    }
  }

  /** What the limiter remembers is enough to count the recent switches. */
  lemma {:induction false} RemembersRecent(times: seq<nat>, switches: seq<nat>, w: nat, max: nat, now: nat)
    requires Limited(times, switches, w, max) && forall i :: 0 <= i < |switches| ==> switches[i] <= now
    ensures Recent(times, w, now) == Recent(switches, w, now)
  {
    var d := |switches| - |times|;
    forall i | 0 <= i < d
      ensures switches[..d][i] + w < now
    {
      assert switches[i] + w < switches[|switches| - 1] <= now;
    }
    NoneRecent(switches[..d], w, now);
    RecentAppend(switches[..d], times, w, now);
    assert switches[..d] + times == switches;
  }

  lemma {:induction false} AllowedIff(s: State, before: seq<Event>, now: nat)
    requires !s.locked && s.switchTimes == [] && s.limit.maxSwitches < U32_MAX && InOrder(before)
    requires forall i :: 0 <= i < |before| && before[i].Packet? ==> before[i].now <= now
    requires !After(s, before).locked
    ensures var t := After(s, before);
      Allowed(t, now)
      <==> t.learned.None? || t.mode != Always
           || Recent(Switches(s, before), SwitchWindow(s), now) < s.limit.maxSwitches
  {
    hide Limited, Recent, Low32, After, Switches;
    var t := After(s, before);
    RunIsLimited(s, before, now);
    PrunedCount(t, now);
    RemembersRecent(t.switchTimes, Switches(s, before), SwitchWindow(t), t.limit.maxSwitches, now);
    FewRecent(t.switchTimes, SwitchWindow(t), now);
    Remembered(t.switchTimes, Switches(s, before), SwitchWindow(t), t.limit.maxSwitches);
    Fits(|PrunedTimes(t, now)| + 1);
  }

  lemma {:induction false} Remembered(times: seq<nat>, switches: seq<nat>, w: nat, max: nat)
    requires Limited(times, switches, w, max)
    ensures |times| <= max
  {
  }

  lemma {:induction false} FewRecent(times: seq<nat>, w: nat, now: nat)
    ensures Recent(times, w, now) <= |times|
  {
    if times == [] {
    } else {
      FewRecent(times[..|times| - 1], w, now);
    }
  }

  lemma {:induction false} Fits(x: nat)
    requires x <= U32_MAX
    ensures Low32(x) == x
  {
  }

  // ---------- the theorem ----------

  /** Learning, exactly: over any run from a handler without candidate, a packet makes
      its address the learned one, and is answered true, if and only if the last
      `threshold` strangers heard since the last re-arming or change of SSRC, this
      packet the last of them, all have that address, and the change is allowed. The
      one change that is not is one in Always mode, of an address learned before,
      within a window of `maxSwitches` others: it locks the handler for good. */
  lemma {:induction false} LearnsExactly(s: State, events: seq<Event>)
    requires s.candidate.None? && s.threshold >= 1 && !s.locked && s.switchTimes == []
    requires s.limit.maxSwitches < U32_MAX && InOrder(events) && events != [] && events[|events| - 1].Packet?
    ensures var before, e := events[..|events| - 1], events[|events| - 1];
      var t, t1 := After(s, before), After(s, events);
      var due := IsStranger(t, e) && Streak(Heard(s, events), e.source) >= s.threshold;
      var allowed := t.learned.None? || t.mode != Always
                     || Recent(Switches(s, before), SwitchWindow(s), e.now) < s.limit.maxSwitches;
      && (Answer(t, e) <==> due && allowed)
      && t1.learned == (if due && allowed then Some(e.source) else t.learned)
      && (t1.locked <==> t.locked || (due && !allowed))
  {
    hide Process, Streak, Low32, Retain, Recent, Switches, Limited, InOrder, Allowed;
    var before, e := events[..|events| - 1], events[|events| - 1];
    var t := After(s, before);
    var noted := if e.ssrc.Some? then NoteSsrc(t, e.ssrc.value) else t;
    RunCounts(s, before);
    KeepsThreshold(s, before);
    PacketOutcome(noted, e.source, e.now);
    StreakGrows(if ChangesSsrc(s.ssrc, before, e) then [] else Heard(s, before), e.source);
    SameAllowance(t, noted, e.now);
    if !t.locked {
      EarlierIsInOrder(events);
      AllowedIff(s, before, e.now);
    }
  }

  lemma {:induction false} SameAllowance(t: State, noted: State, now: nat)
    requires noted == t.(candidate := noted.candidate, tally := noted.tally, ssrc := noted.ssrc)
    ensures Allowed(noted, now) == Allowed(t, now)
  {
  }

  lemma {:induction false} EarlierIsInOrder(events: seq<Event>)
    requires InOrder(events) && events != [] && events[|events| - 1].Packet?
    ensures var before := events[..|events| - 1];
      InOrder(before)
      && forall i :: 0 <= i < |before| && before[i].Packet? ==> before[i].now <= events[|events| - 1].now
  {
  }

  lemma {:induction false} KeepsThreshold(s: State, events: seq<Event>)
    ensures After(s, events).threshold == s.threshold
  {
    hide Process, Low32;
    if events == [] {
    } else {
      var before, e := events[..|events| - 1], events[|events| - 1];
      KeepsThreshold(s, before);
      if e.Packet? {
        var t := After(s, before);
        PacketOutcome(if e.ssrc.Some? then NoteSsrc(t, e.ssrc.value) else t, e.source, e.now);
      }
    }
  }

  // ---------- a new handler, and the window of Once mode ----------

  /** Packets from one address, at these times. */
  function PacketsFrom(a: Addr, times: seq<nat>): (events: seq<Event>)
    ensures |events| == |times| && forall i :: 0 <= i < |times| ==> events[i] == Packet(a, None, times[i])
  {
    seq(|times|, i requires 0 <= i < |times| => Packet(a, None, times[i]))
  }

  lemma {:induction false} NewHandlerCounts(threshold: nat, a: Addr, times: seq<nat>)
    requires |times| < Max(threshold, 1)
    ensures var s, events := NewHandler(threshold), PacketsFrom(a, times);
      var t := After(s, events);
      && t.learned == t.configured == None && t.mode == Always && !t.locked && t.ssrc == None
      && t.threshold == Max(threshold, 1)
      && (if times == [] then t.candidate == None else t.candidate == Some(a) && t.tally == |times|)
  {
    hide Process, Low32, Retain;
    if times == [] {
    } else {
      var before := times[..|times| - 1];
      assert PacketsFrom(a, times)[..|times| - 1] == PacketsFrom(a, before);
      NewHandlerCounts(threshold, a, before);
      PacketOutcome(After(NewHandler(threshold), PacketsFrom(a, before)), a, times[|times| - 1]);
    }
  }

  /** A new handler learns the address of its first `threshold` packets, at least one,
      and answers so at the last of them and at none before. */
  lemma {:induction false} NewHandlerLearns(threshold: nat, a: Addr, times: seq<nat>)
    requires 0 < |times| <= Max(threshold, 1)
    ensures var s, events := NewHandler(threshold), PacketsFrom(a, times);
      var t := After(s, events[..|times| - 1]);
      && (Answer(t, events[|times| - 1]) <==> |times| == Max(threshold, 1))
      && After(s, events).learned == if |times| == Max(threshold, 1) then Some(a) else None
  {
    hide Process, Low32, Retain;
    var before := times[..|times| - 1];
    assert PacketsFrom(a, times)[..|times| - 1] == PacketsFrom(a, before);
    NewHandlerCounts(threshold, a, before);
    PacketOutcome(After(NewHandler(threshold), PacketsFrom(a, before)), a, times[|times| - 1]);
  }

  ghost predicate AllPackets(events: seq<Event>) {
    forall i :: 0 <= i < |events| ==> events[i].Packet?
  }

  lemma {:induction false} OncePacket(s: State, e: Event)
    requires s.mode == Once && !s.locked && e.Packet? && Step(s, e).learned == s.learned
    ensures var t := Step(s, e);
      && t.mode == Once && !t.locked && t.configured == s.configured
      && t.remaining == if s.configured != Some(e.source) && s.learned != Some(e.source) && s.remaining > 0
                        then s.remaining - 1 else s.remaining
  {
    hide Low32, Retain;
  }

  /** The window of Once mode: while no address is learned, each stranger uses up one
      place of it, and with the last the handler stops learning. */
  lemma {:induction false} OnceWindowCloses(s: State, events: seq<Event>)
    requires s.mode == Once && !s.locked && AllPackets(events)
    requires forall n :: 0 <= n <= |events| ==> After(s, events[..n]).learned == s.learned
    ensures var t, strangers := After(s, events), Strangers(events, s.configured, s.learned);
      && t.mode == Once && !t.locked && t.configured == s.configured && t.learned == s.learned
      && t.remaining == SaturatingSub(s.remaining, |strangers|) && (Learning(t) <==> |strangers| < s.remaining)
  {
    hide Step;
    if events == [] {
      assert events[..0] == events;
    } else {
      var before, e := events[..|events| - 1], events[|events| - 1];
      assert forall n :: 0 <= n <= |before| ==> before[..n] == events[..n];
      assert events[..|events|] == events;
      OnceWindowCloses(s, before);
      OncePacket(After(s, before), e);
    }
  }

  /** A learned address ends the learning of Once mode. */
  lemma {:induction false} OnceStopsAtFirst(s: State, e: Event)
    requires s.mode == Once && e.Packet? && Step(s, e).learned != s.learned
    ensures !Learning(Step(s, e))
  {
    hide Low32, Retain;
  }

  /** Re-arming and setting a mode open the whole window again; re-arming forgets who
      was heard, setting a mode does not; neither lifts a lock. */
  lemma {:induction false} WindowReopens(s: State, mode: Mode)
    ensures Rearm(s) == s.(remaining := s.window, candidate := None, tally := 0)
    ensures mode != Disabled ==> SetMode(s, mode) == s.(mode := mode, remaining := s.window)
    ensures SetMode(s, Disabled) == s.(mode := Disabled)
    ensures !Learning(SetMode(s, Disabled)) && (s.locked ==> !Learning(Rearm(s)) && !Learning(SetMode(s, mode)))
  {
  }

  /** Twice the threshold is what a new handler has for a window. */
  lemma {:induction false} NewWindow(threshold: nat, events: seq<Event>)
    requires AllPackets(events)
    requires var s := SetMode(NewHandler(threshold), Once);
      forall n :: 0 <= n <= |events| ==> After(s, events[..n]).learned == None
    ensures Learning(After(SetMode(NewHandler(threshold), Once), events)) <==> |events| < 2 * Max(threshold, 1)
  {
    hide Step;
    OnceWindowCloses(SetMode(NewHandler(threshold), Once), events);
    AllAreStrangers(events);
  }

  lemma {:induction false} AllAreStrangers(events: seq<Event>)
    requires AllPackets(events)
    ensures |Strangers(events, None, None)| == |events|
  {
    if events == [] {
    } else {
      AllAreStrangers(events[..|events| - 1]);
    }
  }

  /** A reset handler is a new one but for its settings. */
  lemma {:induction false} ResetIsNew(s: State)
    requires s.threshold >= 1
    ensures Reset(s) == NewHandler(s.threshold).(configured := s.configured, mode := s.mode, limit := s.limit,
                                                 window := s.window, remaining := s.window)
  {
  }

  /** A new SSRC forgets who was counting; the first one does not. */
  lemma {:induction false} NewSsrcForgets(s: State, ssrc: u32)
    ensures NoteSsrc(s, ssrc).ssrc == Some(ssrc)
    ensures s.ssrc.Some? && s.ssrc.value != ssrc ==>
      NoteSsrc(s, ssrc) == s.(ssrc := Some(ssrc), candidate := None, tally := 0)
    ensures s.ssrc.None? || s.ssrc.value == ssrc ==> NoteSsrc(s, ssrc) == s.(ssrc := Some(ssrc))
  {
  }

  /** In Always mode every change that comes to be decided is recorded, allowed or not;
      in the other modes none is, and all are allowed. */
  lemma {:induction false} ChangesAreRecorded(s: State, now: nat)
    ensures s.mode == Always ==>
      var (t, allowed) := RecordSwitch(s, now);
      && |t.switchTimes| == Recent(s.switchTimes, SwitchWindow(s), now) + 1
      && t.switchTimes[|t.switchTimes| - 1] == now && t == s.(switchTimes := t.switchTimes, locked := t.locked)
      && (!allowed ==> t.locked) && (allowed ==> t.locked == s.locked)
    ensures s.mode != Always ==> RecordSwitch(s, now) == (s, true)
  {
    PrunedCount(s, now);
  }

  /** Learning in Always mode leaves the window alone, and every packet is counted. */
  lemma {:induction false} AlwaysKeepsWindow(s: State, source: Addr, now: nat)
    ensures var t := Process(s, source, now).0;
      t.processed == s.processed + 1 && (s.mode == Always ==> t.remaining == s.remaining)
  {
    hide Low32, Retain;
  }

  /** The configured address last set. */
  function LastConfigured(from: Option<Addr>, events: seq<Event>): Option<Addr> {
    if events == [] then from
    else
      var e := events[|events| - 1];
      if e.ConfiguredSet? then Some(e.addr) else LastConfigured(from, events[..|events| - 1])
  }

  /** Media goes to the learned address, and while there is none to the configured one. */
  lemma {:induction false} MediaGoesTo(s: State, events: seq<Event>)
    ensures var t := After(s, events);
      && t.configured == LastConfigured(s.configured, events)
      && Effective(t) == if t.learned.None? then LastConfigured(s.configured, events) else t.learned
  {
    hide Process;
    if events == [] {
    } else {
      var before, e := events[..|events| - 1], events[|events| - 1];
      MediaGoesTo(s, before);
      if e.Packet? {
        var t := After(s, before);
        PacketOutcome(if e.ssrc.Some? then NoteSsrc(t, e.ssrc.value) else t, e.source, e.now);
      }
    }
  }

  /** A new handler allows five changes of address within ten seconds, and no sixth. */
  lemma {:induction false} FiveChangesInTenSeconds(threshold: nat, events: seq<Event>)
    requires InOrder(events) && events != [] && events[|events| - 1].Packet?
    ensures var s, before, e := NewHandler(threshold), events[..|events| - 1], events[|events| - 1];
      var t := After(s, before);
      Answer(t, e) <==>
        IsStranger(t, e) && Streak(Heard(s, events), e.source) >= Max(threshold, 1)
        && (t.learned.None? || t.mode != Always || Recent(Switches(s, before), 10_000_000_000, e.now) < 5)
    ensures NewHandler(threshold).remaining == NewHandler(threshold).window
  {
    hide After, Heard, Streak, Recent, Switches, InOrder, Answer;
    LearnsExactly(NewHandler(threshold), events);
    assert SwitchWindow(NewHandler(threshold)) == 10_000_000_000;
  }
}
