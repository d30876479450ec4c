/** The handler as the object of src/nat/symmetric_rtp.rs, each method proved
    against its function in SymmetricLearning. */
module Symmetric {
  import opened Words
  import opened SymmetricLearning

  class SymmetricRtp {
    var configured: Option<Addr>
    var candidate: Option<Addr>
    var tally: nat
    var threshold: nat
    var window: nat
    var windowRemaining: nat
    var learned: Option<Addr>
    var mode: Mode
    var processed: nat
    var learnedSsrc: Option<u32>
    var rateLimit: RateLimit
    var switchTimes: seq<nat>
    var locked: bool

    function Now(): State
      reads this
    {
      State(configured, candidate, tally, threshold, window, windowRemaining, learned, mode, processed, learnedSsrc,
            rateLimit, switchTimes, locked)
    }

    constructor (threshold: nat)
      ensures Now() == NewHandler(threshold)
    {
      var atLeastOne := if threshold < 1 then 1 else threshold;
      configured, candidate, tally := None, None, 0;
      this.threshold, window, windowRemaining := atLeastOne, atLeastOne * 2, atLeastOne * 2;
      learned, mode, processed, learnedSsrc := None, Always, 0, None;
      rateLimit, switchTimes, locked := RateLimit(5, 10), [], false;
    }

    /** Without a learned address the configured one is used. */
    method EffectiveRemote() returns (addr: Option<Addr>)
      ensures addr == Effective(Now())
    {
      addr := if learned.Some? then learned else configured;
    }

    method SetRateLimit(maxSwitches: u32, windowSecs: nat)
      modifies this
      ensures Now() == old(Now()).(limit := RateLimit(maxSwitches, windowSecs))
    {
      rateLimit := RateLimit(maxSwitches, windowSecs);
    }

    method SetMode(mode: Mode)
      modifies this
      ensures Now() == SymmetricLearning.SetMode(old(Now()), mode)
    {
      this.mode := mode;
      if mode != Disabled {
        windowRemaining := window;
      }
    }

    method SetConfigured(addr: Addr)
      modifies this
      ensures Now() == old(Now()).(configured := Some(addr))
    {
      configured := Some(addr);
    }

    method Rearm()
      modifies this
      ensures Now() == SymmetricLearning.Rearm(old(Now()))
    {
      windowRemaining, candidate, tally := window, None, 0;
    }

    method Reset()
      modifies this
      ensures Now() == SymmetricLearning.Reset(old(Now()))
    {
      hide Retain;
      learned, candidate, tally := None, None, 0;
      windowRemaining, processed, learnedSsrc := window, 0, None;
      switchTimes, locked := [], false;
    }

    /** Drops the recorded switches that lie before `start`. */
    method Prune(start: nat)
      modifies this
      ensures Now() == old(Now()).(switchTimes := Retain(old(switchTimes), start))
    {
      var kept: seq<nat> := [];
      var i := 0;
      while i < |switchTimes|
        invariant i <= |switchTimes|
        invariant kept + Retain(switchTimes[i..], start) == Retain(switchTimes, start)
        invariant Now() == old(Now())
      {
        ghost var rest := Retain(switchTimes[i + 1..], start);
        assert switchTimes[i..][1..] == switchTimes[i + 1..];
        if switchTimes[i] >= start {
          assert Retain(switchTimes[i..], start) == [switchTimes[i]] + rest;
          assert kept + ([switchTimes[i]] + rest) == (kept + [switchTimes[i]]) + rest;
          kept := kept + [switchTimes[i]];
        } else {
          assert Retain(switchTimes[i..], start) == [] + rest == rest;
        }
        i := i + 1;
      }
      assert Retain(switchTimes[i..], start) == [];
      assert kept + [] == kept;
      switchTimes := kept;
    }

    method RecordSwitch(now: nat) returns (allowed: bool)
      modifies this
      ensures (Now(), allowed) == SymmetricLearning.RecordSwitch(old(Now()), now)
    {
      if mode != Always {
        return true;
      }
      var length := rateLimit.windowSecs * NANOS;
      if now >= length {
        Prune(now - length);
      }
      switchTimes := switchTimes + [now];
      if Low32(|switchTimes|) > rateLimit.maxSwitches {
        locked := true;
        return false;
      }
      allowed := true;
    }

    method Accept(source: Addr, now: nat) returns (changed: bool)
      modifies this
      ensures (Now(), changed) == AcceptCandidate(old(Now()), source, now)
    {
      var before := learned;
      if before.Some? && before != Some(source) {
        var allowed := RecordSwitch(now);
        if !allowed {
          return false;
        }
      }
      learned := Some(source);
      if mode == Once {
        windowRemaining := 0;
      }
      changed := before != Some(source);
    }

    method ProcessIncomingWithTime(source: Addr, now: nat) returns (changed: bool)
      modifies this
      ensures (Now(), changed) == Process(old(Now()), source, now)
    {
      processed := processed + 1;
      if mode == Disabled || locked || (mode == Once && windowRemaining == 0) {
        return false;
      }
      if configured == Some(source) || learned == Some(source) {
        return false;
      }
      if candidate == Some(source) {
        tally := tally + 1;
        if tally >= threshold {
          changed := Accept(source, now);
          return;
        }
      } else {
        candidate, tally := Some(source), 1;
        if threshold <= 1 {
          changed := Accept(source, now);
          return;
        }
      }
      if mode == Once && windowRemaining > 0 {
        windowRemaining := windowRemaining - 1;
      }
      changed := false;
    }

    method ProcessIncomingWithSsrc(source: Addr, ssrc: u32, now: nat) returns (changed: bool)
      modifies this
      ensures (Now(), changed) == ProcessWithSsrc(old(Now()), source, ssrc, now)
    {
      match learnedSsrc {
        case Some(previous) =>
          if previous != ssrc {
            candidate, tally, learnedSsrc := None, 0, Some(ssrc);
          }
        case None =>
          learnedSsrc := Some(ssrc);
      }
      changed := ProcessIncomingWithTime(source, now);
    }
  }
}
