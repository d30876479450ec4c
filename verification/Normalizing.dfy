/** Mapping remote timestamps to a local timebase (`TimestampNormalizer` of
    src/rtp/engine.rs). */
module Normalizing {
  import opened Words

  /** `last` is the remote timestamp seen last. The products of the source fit 32
      bits for any sample rate below some 850 MHz and any sane packet time. */
  datatype State = State(localBase: u32, remoteBase: Option<u32>, offset: int, last: Option<u32>, rate: nat, ptime: nat)

  predicate Configured(s: State) {
    s.rate * 5 <= U32_MAX && s.rate * s.ptime <= U32_MAX
  }

  function NewNormalizer(rate: nat, ptime: nat): State {
    State(0, None, 0, None, rate, ptime)
  }

  function PacketSamples(s: State): nat {
    s.rate * s.ptime / 1000
  }

  /** Is `remote` a jump: back by less than five seconds, or forward by more? */
  predicate Jump(last: u32, remote: u32, rate: nat) {
    var forward, back := Sub32(remote, last), Sub32(last, remote);
    if back < rate * 5 && back < forward then true else forward > rate * 5
  }

  function Output(s: State, remote: u32): u32 {
    Low32(remote + s.offset)
  }

  /** The next output when the stream is to go on by one packet. */
  function Restart(s: State, last: u32, remote: u32): State {
    var base := Low32(Low32(last + s.offset) + PacketSamples(s));
    s.(localBase := base, offset := base - remote, remoteBase := Some(remote))
  }

  function NormalizeTimestamp(s: State, remote: u32): (State, u32, bool) {
    if s.remoteBase.None? then
      var t := s.(remoteBase := Some(remote), offset := s.localBase - remote, last := Some(remote));
      (t, Output(t, remote), false)
    else
      var jump := s.last.Some? && Jump(s.last.value, remote, s.rate);
      var t := if jump then Restart(s, s.last.value, remote) else s;
      (t.(last := Some(remote)), Output(t, remote), jump)
  }

  function ResetNormalizer(s: State): State {
    s.(localBase := 0, remoteBase := None, offset := 0, last := None)
  }

  // ---------- what an output is ----------

  /** For every real sample rate the test for a step back is redundant: a jump is
      a forward distance of more than five seconds. */
  lemma {:induction false} JumpIsFar(last: u32, remote: u32, rate: nat)
    requires rate * 10 <= U32_MAX
    ensures Jump(last, remote, rate) <==> Sub32(remote, last) > rate * 5
  {
    Opposite(last, remote);
  }

  lemma {:induction false} Opposite(a: u32, b: u32)
    ensures a != b ==> Sub32(a, b) + Sub32(b, a) == 0x1_0000_0000
    ensures a == b ==> Sub32(a, b) == 0 && Sub32(b, a) == 0
  {
  }

  /** A jump for any sample rate, by the shorter way round: forward by more than five
      seconds, or back, by less than five seconds or so far that it is forward by more
      the other way. */
  lemma {:induction false} JumpIs(last: u32, remote: u32, rate: nat, d: int)
    requires -0x8000_0000 <= d < 0x8000_0000 && remote == Low32(last + d)
    ensures Jump(last, remote, rate)
       <==> if d >= 0 then d > rate * 5
            else (-d < rate * 5 && d > -0x8000_0000) || 0x1_0000_0000 + d > rate * 5
  {
    ShorterWay(last, remote, d);
  }

  lemma {:induction false} ShorterWay(last: u32, remote: u32, d: int)
    requires -0x8000_0000 <= d < 0x8000_0000 && remote == Low32(last + d)
    ensures Sub32(remote, last) == if d >= 0 then d else 0x1_0000_0000 + d
    ensures Sub32(last, remote) == if d > 0 then 0x1_0000_0000 - d else -d
  {
  }

  /** A packet, and the packet time in force when it arrives. */
  datatype Packet = Packet(remote: u32, ptime: nat)

  function Step(s: State, p: Packet): (State, u32, bool) {
    NormalizeTimestamp(s.(ptime := p.ptime), p.remote)
  }

  function After(s: State, run: seq<Packet>): State {
    if run == [] then s else Step(After(s, run[..|run| - 1]), run[|run| - 1]).0
  }

  /** The result for the last packet of a run. */
  function LastResult(s: State, run: seq<Packet>): (u32, bool)
    requires run != []
  {
    var r := Step(After(s, run[..|run| - 1]), run[|run| - 1]);
    (r.1, r.2)
  }

  /** How far the stream moves from one remote timestamp to the next: as far as
      the remote says or, over a jump, by one packet. */
  function Advance(before: u32, p: Packet, rate: nat): nat {
    if Jump(before, p.remote, rate) then rate * p.ptime / 1000 else Sub32(p.remote, before)
  }

  /** The time elapsed since the first packet of a run, in samples, unbounded. */
  function Elapsed(run: seq<Packet>, rate: nat): nat {
    if |run| <= 1 then 0 else Elapsed(run[..|run| - 1], rate) + Advance(run[|run| - 2].remote, run[|run| - 1], rate)
  }

  lemma {:induction false} Congruent(x: int, y: int)
    ensures Low32(x + Low32(y)) == Low32(x + y)
  {
    assert y == 0x1_0000_0000 * (y / 0x1_0000_0000) + Low32(y);
    var q := y / 0x1_0000_0000;
    assert x + y == x + Low32(y) + 0x1_0000_0000 * q;
  }

  /** A packet that is not a jump moves the output as far as the remote moved. */
  lemma {:induction false} Follows(offset: int, before: u32, remote: u32, elapsed: nat)
    requires Low32(before + offset) == Low32(elapsed)
    ensures Low32(remote + offset) == Low32(elapsed + Sub32(remote, before))
  {
    var out := Low32(before + offset);
    Congruent(remote - before, before + offset);
    Congruent(remote - before, elapsed);
    Congruent(elapsed, remote - before);
    assert remote - before + (before + offset) == remote + offset;
    assert Low32(remote + offset) == Low32(remote - before + out) == Low32(remote - before + elapsed);
  }

  lemma {:induction false} JumpBase(out: u32, n: nat, remote: u32, elapsed: nat)
    requires out == Low32(elapsed)
    ensures Low32(remote + (Low32(out + n) - remote)) == Low32(elapsed + n)
  {
    Congruent(n, elapsed);
  }

  lemma {:induction false} JumpsByOnePacket(s: State, before: u32, remote: u32, elapsed: nat)
    requires Low32(before + s.offset) == Low32(elapsed)
    ensures Output(Restart(s, before, remote), remote) == Low32(elapsed + PacketSamples(s))
  {
    JumpBase(Low32(before + s.offset), PacketSamples(s), remote, elapsed);
  }

  lemma {:induction false} NextOutput(s: State, before: u32, p: Packet, elapsed: nat)
    requires s.remoteBase.Some? && s.last == Some(before) && Low32(before + s.offset) == Low32(elapsed)
    ensures var (t, out, jumped) := Step(s, p);
      && out == Low32(elapsed + Advance(before, p, s.rate)) && jumped == Jump(before, p.remote, s.rate)
      && t.rate == s.rate && t.remoteBase.Some? && t.last == Some(p.remote) && Low32(p.remote + t.offset) == out
  {
    if Jump(before, p.remote, s.rate) {
      JumpsByOnePacket(s.(ptime := p.ptime), before, p.remote, elapsed);
    } else {
      Follows(s.offset, before, p.remote, elapsed);
    }
  }

  /** Normalisation is smooth: whatever the remote timestamps, the output is the
      time elapsed since the first packet, which begins at 0 and only grows, by
      the remote's own step of at most five seconds or, exactly when flagged, by
      one packet. */
  lemma {:induction false} OutputIsElapsed(rate: nat, ptime: nat, run: seq<Packet>)
    requires run != []
    ensures var s := NewNormalizer(rate, ptime);
      var t := After(s, run);
      && LastResult(s, run).0 == Low32(Elapsed(run, rate))
      && LastResult(s, run).1 == (|run| >= 2 && Jump(run[|run| - 2].remote, run[|run| - 1].remote, rate))
      && t.rate == rate && t.remoteBase.Some? && t.last == Some(run[|run| - 1].remote)
      && Low32(run[|run| - 1].remote + t.offset) == LastResult(s, run).0
  {
    var s, before, p := NewNormalizer(rate, ptime), run[..|run| - 1], run[|run| - 1];
    if |run| >= 2 {
      OutputIsElapsed(rate, ptime, before);
      NextOutput(After(s, before), run[|run| - 2].remote, p, Elapsed(before, rate));
    } else {
      assert before == [];
    }
  }

  /** One step of a run moves the unbounded output forward, never far. */
  lemma {:induction false} StepIsBounded(rate: nat, ptime: nat, run: seq<Packet>)
    requires |run| >= 2
    ensures var s := NewNormalizer(rate, ptime);
      var step := Elapsed(run, rate) - Elapsed(run[..|run| - 1], rate);
      && LastResult(s, run).0 == Low32(LastResult(s, run[..|run| - 1]).0 + step)
      && if LastResult(s, run).1 then step == rate * run[|run| - 1].ptime / 1000
         else step == Sub32(run[|run| - 1].remote, run[|run| - 2].remote) <= rate * 5
  {
    var before := run[..|run| - 1];
    OutputIsElapsed(rate, ptime, run);
    OutputIsElapsed(rate, ptime, before);
    var step := Advance(run[|run| - 2].remote, run[|run| - 1], rate);
    Congruent(step, Elapsed(before, rate));
  }

  /** A jump starts the mapping again at this packet. */
  lemma {:induction false} JumpRemaps(s: State, remote: u32)
    requires s.remoteBase.Some?
    ensures var (t, out, jumped) := NormalizeTimestamp(s, remote);
      jumped ==> t.localBase == out && t.remoteBase == Some(remote) && t.offset == out - remote
  {
  }

  /** A reset normaliser is a new one. */
  lemma {:induction false} ResetIsNew(s: State)
    ensures ResetNormalizer(s) == NewNormalizer(s.rate, s.ptime)
  {
  }

  // ---------- the object ----------

  class TimestampNormalizer {
    var localBase: u32
    var remoteBase: Option<u32>
    var offset: int
    var last: Option<u32>
    const rate: nat
    var ptime: nat

    function Now(): State
      reads this
    {
      State(localBase, remoteBase, offset, last, rate, ptime)
    }

    constructor (rate: nat, ptime: nat)
      ensures Now() == NewNormalizer(rate, ptime)
    {
      localBase, remoteBase, offset, last := 0, None, 0, None;
      this.rate, this.ptime := rate, ptime;
    }

    method SetPtime(ptime: nat)
      modifies this
      ensures Now() == old(Now()).(ptime := ptime)
    {
      this.ptime := ptime;
    }

    method Reset()
      modifies this
      ensures Now() == ResetNormalizer(old(Now()))
    {
      localBase, remoteBase, offset, last := 0, None, 0, None;
    }

    method SamplesPerPacket() returns (n: nat)
      ensures n == PacketSamples(Now())
    {
      n := rate * ptime / 1000;
    }

    method Normalize(remote: u32) returns (out: u32, discontinuity: bool)
      requires Configured(Now())
      modifies this
      ensures (Now(), out, discontinuity) == NormalizeTimestamp(old(Now()), remote)
    {
      hide Low32, Sub32;
      discontinuity := false;
      match remoteBase {
        case None =>
          remoteBase := Some(remote);
          offset := localBase - remote;
        case Some(_) =>
          if last.Some? {
            var forward, back := Sub32(remote, last.value), Sub32(last.value, remote);
            discontinuity := (back < rate * 5 && back < forward) || forward > rate * 5;
            if discontinuity {
              localBase := Low32(last.value + offset);
              var samples := SamplesPerPacket();
              localBase := Low32(localBase + samples);
              offset := localBase - remote;
              remoteBase := Some(remote);
            }
          }
      }
      last := Some(remote);
      out := Low32(remote + offset);
    }
  }
}
