/** Symmetric RTP (src/nat/symmetric_rtp.rs): learning the address to send to
    from the packets that arrive, as functions on the handler's state. */
module SymmetricLearning {
  import opened Words

  datatype Addr = Addr(host: nat, port: u16)

  datatype Mode = Once | Always | Disabled

  /** Clock readings are in nanoseconds. */
  const NANOS := 1_000_000_000

  datatype RateLimit = RateLimit(maxSwitches: u32, windowSecs: nat)

  datatype State = State(
    configured: Option<Addr>, candidate: Option<Addr>, tally: nat, threshold: nat, window: nat, remaining: nat,
    learned: Option<Addr>, mode: Mode, processed: nat, ssrc: Option<u32>,
    limit: RateLimit, switchTimes: seq<nat>, locked: bool)

  function NewHandler(threshold: nat): State {
    var t := Max(threshold, 1);
    State(None, None, 0, t, t * 2, t * 2, None, Always, 0, None, RateLimit(5, 10), [], false)
  }

  function Effective(s: State): Option<Addr> {
    if s.learned.Some? then s.learned else s.configured
  }

  // ---------- the rate limiter ----------

  /** The entries of `ts` not before `start`. */
  function Retain(ts: seq<nat>, start: int): seq<nat> {
    if ts == [] then []
    else (if ts[0] >= start then [ts[0]] else []) + Retain(ts[1..], start)
  }

  function SwitchWindow(s: State): nat {
    s.limit.windowSecs * NANOS
  }

  function PrunedTimes(s: State, now: nat): seq<nat> {
    if now >= SwitchWindow(s) then Retain(s.switchTimes, now - SwitchWindow(s)) else s.switchTimes
  }

  /** Records a change of an already learned address; false refuses it for good. */
  function RecordSwitch(s: State, now: nat): (State, bool) {
    if s.mode != Always then (s, true)
    else
      var times := PrunedTimes(s, now) + [now];
      if Low32(|times|) > s.limit.maxSwitches then (s.(switchTimes := times, locked := true), false)
      else (s.(switchTimes := times), true)
  }

  // ---------- learning ----------

  function Learn(s: State, source: Addr): State {
    s.(learned := Some(source), remaining := if s.mode == Once then 0 else s.remaining)
  }

  /** The candidate has reached the threshold. */
  function AcceptCandidate(s: State, source: Addr, now: nat): (State, bool) {
    var (s1, allowed) := if s.learned.Some? && s.learned != Some(source) then RecordSwitch(s, now) else (s, true);
    if !allowed then (s1, false) else (Learn(s1, source), s.learned != Some(source))
  }

  function DecrementWindow(s: State): State {
    if s.mode == Once && s.remaining > 0 then s.(remaining := s.remaining - 1) else s
  }

  predicate Active(s: State) {
    s.mode != Disabled && !s.locked && !(s.mode == Once && s.remaining == 0)
  }

  function Count(s: State, source: Addr): State {
    if s.candidate == Some(source) then s.(tally := s.tally + 1)
    else s.(candidate := Some(source), tally := 1)
  }

  function Process(s: State, source: Addr, now: nat): (State, bool) {
    var s1 := s.(processed := s.processed + 1);
    if !Active(s) || s.configured == Some(source) || s.learned == Some(source) then (s1, false)
    else
      var s2 := Count(s1, source);
      if s2.tally >= s.threshold then AcceptCandidate(s2, source, now)
      else (DecrementWindow(s2), false)
  }

  /** A new SSRC discards the candidate. */
  function NoteSsrc(s: State, ssrc: u32): State {
    if s.ssrc.Some? && s.ssrc != Some(ssrc) then s.(candidate := None, tally := 0, ssrc := Some(ssrc))
    else s.(ssrc := Some(ssrc))
  }

  function ProcessWithSsrc(s: State, source: Addr, ssrc: u32, now: nat): (State, bool) {
    Process(NoteSsrc(s, ssrc), source, now)
  }

  function Rearm(s: State): State {
    s.(remaining := s.window, candidate := None, tally := 0)
  }

  function SetMode(s: State, mode: Mode): State {
    s.(mode := mode, remaining := if mode != Disabled then s.window else s.remaining)
  }

  function Reset(s: State): State {
    s.(learned := None, candidate := None, tally := 0, remaining := s.window, processed := 0, ssrc := None,
       switchTimes := [], locked := false)
  }
}
