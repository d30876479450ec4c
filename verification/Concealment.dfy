/** Packet loss concealment (src/rtp/plc.rs) as functions. Gains and window
    weights are exact reals where the source has `f32`. */
module Concealment {
  import opened Words

  type Sample = x: int | -32768 <= x <= 32767

  const HISTORY_LEN := 390
  const PITCH_MIN := 20
  const PITCH_MAX := 160
  const OLA_WINDOW := 16
  const MAX_CONCEAL_MS := 60

  /** A raised window: weights between 0 and 1, from 0 at the first position of
      at least two to 1 at the last. The source's cosine is one. */
  type Window = h: (nat, nat) -> real |
    forall i: nat, len: nat ::
      && 0.0 <= h(i, len) <= 1.0
      && (len >= 2 && i == 0 ==> h(i, len) == 0.0) && (len >= 2 && i == len - 1 ==> h(i, len) == 1.0)
    witness ((i: nat, len: nat) => if i == 0 then 0.0 else 1.0)

  function Weight(h: Window, i: nat, len: nat): (w: real)
    ensures 0.0 <= w <= 1.0
  {
    if len <= 1 then 1.0 else h(i, len)
  }

  /** Rounding half away from zero. */
  function Round(v: real): int {
    if v >= 0.0 then (v + 0.5).Floor else -((-v + 0.5).Floor)
  }

  function Clamp16(v: real): Sample {
    var r := Round(v);
    if r < -32768 then -32768 else if r > 32767 then 32767 else r
  }

  function Last<T>(s: seq<T>, n: nat): seq<T> {
    if |s| <= n then s else s[|s| - n..]
  }

  function Share(x: real, w: real): real {
    x * w
  }

  function Mix(a: real, b: real, w: real): real {
    Share(a, 1.0 - w) + Share(b, w)
  }

  /** Sample `i` of a blend over `len` samples, from `a` to `b`. */
  function Blend(h: Window, a: real, b: real, i: nat, len: nat): Sample {
    Clamp16(Mix(a, b, Weight(h, i, len)))
  }

  function BlendFirst(h: Window, outgoing: seq<Sample>, frame: seq<Sample>, len: nat, k: nat): (r: seq<Sample>)
    requires k <= len && len <= |outgoing| && len <= |frame|
    ensures |r| == k
  {
    if k == 0 then []
    else
      BlendFirst(h, outgoing, frame, len, k - 1)
      + [Blend(h, outgoing[k - 1] as real, frame[k - 1] as real, k - 1, len)]
  }

  /** `outgoing` fades out and `frame` in over the first `len` samples. */
  function Crossfade(h: Window, outgoing: seq<Sample>, frame: seq<Sample>, len: nat): (r: seq<Sample>)
    requires len <= |outgoing| && len <= |frame|
    ensures |r| == |frame|
  {
    BlendFirst(h, outgoing, frame, len, len) + frame[len..]
  }

  function Silence(n: nat): (r: seq<Sample>)
    ensures |r| == n
  {
    if n == 0 then [] else Silence(n - 1) + [0]
  }

  /** `heard` is everything ever written to the history, of which the buffer
      keeps the last HISTORY_LEN samples. */
  datatype State = State(
    heard: seq<Sample>, pitch: nat, overlap: seq<Sample>, count: nat, gain: real, perPacket: nat, maxFrames: nat)

  /** The slot of the circular buffer for position `n`. */
  function Slot(n: int): nat {
    n % 390
  }

  function HistoryTail(heard: seq<Sample>, count: nat): seq<Sample> {
    Last(heard, Min(count, HISTORY_LEN))
  }

  function DefaultPitch(perPacket: nat): nat {
    Max(Min(perPacket, PITCH_MAX), PITCH_MIN)
  }

  function MaxConcealFrames(perPacket: nat, sampleRate: nat): nat {
    var rate := if sampleRate > 0 then sampleRate else 8000;
    if perPacket > 0 then Max((MAX_CONCEAL_MS * rate + 1000 * perPacket - 1) / (1000 * perPacket), 1) else 3
  }

  predicate Silent(s: seq<Sample>) {
    forall i :: 0 <= i < |s| ==> s[i] == 0
  }

  /** `correlated` is what the autocorrelation search would answer. */
  function DetectPitch(heard: seq<Sample>, perPacket: nat, correlated: nat): nat {
    if |heard| < PITCH_MAX * 2 || Silent(Last(heard, PITCH_MAX)) then DefaultPitch(perPacket) else correlated
  }

  /** The head of `current` blended with the tail of `previous`. */
  function OlaPeriod(h: Window, previous: seq<Sample>, current: seq<Sample>): (r: seq<Sample>)
    ensures |r| == |current|
  {
    var ola := Min(OLA_WINDOW, Min(|current|, |previous|));
    Crossfade(h, Last(previous, ola), current, ola)
  }

  /** The period before the last one, as far as the tail shows it. */
  function PreviousPeriod(tail: seq<Sample>, pitch: nat): seq<Sample> {
    if |tail| >= pitch * 2 then tail[|tail| - pitch * 2..|tail| - pitch] else Last(tail, pitch)
  }

  function Joined(h: Window, previous: seq<Sample>, current: seq<Sample>): (r: seq<Sample>)
    ensures |r| == |current|
  {
    if previous == current then current else OlaPeriod(h, previous, current)
  }

  /** The pitch period to repeat. */
  function Template(h: Window, heard: seq<Sample>, pitch: nat): (r: seq<Sample>)
    ensures heard != [] && pitch > 0 ==> r != []
  {
    var tail := HistoryTail(heard, Min(pitch * 2, Min(|heard|, HISTORY_LEN)));
    Joined(h, PreviousPeriod(tail, pitch), Last(tail, pitch))
  }

  function Scaled(template: seq<Sample>, gain: real): (r: seq<real>)
    ensures |r| == |template|
  {
    if template == [] then [] else Scaled(template[..|template| - 1], gain) + [template[|template| - 1] as real * gain]
  }

  lemma {:induction false} ScaledAt(template: seq<Sample>, gain: real, k: nat)
    requires k < |template|
    ensures Scaled(template, gain)[k] == template[k] as real * gain
  {
    if k == |template| - 1 {
    } else {
      ScaledAt(template[..|template| - 1], gain, k);
    }
  }

  /** Position `pos` of a repetition; at its start, when it is not the first, the
      end of the one before is blended in. */
  function RepeatedAt(h: Window, period: seq<real>, pos: nat, first: bool): Sample
    requires pos < |period|
  {
    var ola := Min(OLA_WINDOW, |period|);
    if pos < ola && !first then Blend(h, period[|period| - ola + pos], period[pos], pos, ola) else Clamp16(period[pos])
  }

  /** Sample `i` of the repeated period. */
  function Repeated(h: Window, period: seq<real>, i: nat): Sample
    requires period != []
  {
    RepeatedAt(h, period, i % |period|, i < |period|)
  }

  function Tiled(h: Window, period: seq<real>, n: nat): (r: seq<Sample>)
    requires period != []
    ensures |r| == n
  {
    if n == 0 then [] else Tiled(h, period, n - 1) + [Repeated(h, period, n - 1)]
  }

  function PitchRepeat(h: Window, heard: seq<Sample>, pitch: nat, n: nat, gain: real): (r: seq<Sample>)
    ensures |r| == n
  {
    if pitch == 0 || heard == [] then Silence(n) else Tiled(h, Scaled(Template(h, heard, pitch), gain), n)
  }

  function NewConcealer(perPacket: nat, sampleRate: nat): State {
    State([], DefaultPitch(perPacket), [], 0, 1.0, perPacket, MaxConcealFrames(perPacket, sampleRate))
  }

  /** What `update` writes to the history. */
  function Written(h: Window, s: State, samples: seq<Sample>): (r: seq<Sample>)
    ensures |r| == |samples|
  {
    if s.count > 0 && s.overlap != []
    then Crossfade(h, s.overlap, samples, Min(Min(|s.overlap|, |samples|), OLA_WINDOW))
    else samples
  }

  /** Good audio arrives. */
  function Update(h: Window, s: State, samples: seq<Sample>, correlated: nat): State {
    if samples == [] then s
    else
      var written := Written(h, s, samples);
      var heard := s.heard + written;
      s.(heard := heard,
         overlap := if s.count > 0 then PitchRepeat(h, s.heard, s.pitch, OLA_WINDOW, s.gain)
                    else Last(written, OLA_WINDOW),
         count := 0, gain := 1.0, pitch := DetectPitch(heard, s.perPacket, correlated))
  }

  /** The gain of the next frame of a loss: 0.96 of the one before. */
  function DecayedGain(gain: real): (r: real)
    ensures 0.0 <= gain <= 1.0 ==> 0.0 <= r <= 1.0
  {
    gain * 0.96
  }

  predicate Joins(s: State) {
    s.count == 0 && s.overlap != []
  }

  /** The frame played for a loss; the first of a loss continues the last good
      audio. */
  function LossFrame(h: Window, s: State, n: nat, gain: real): (r: seq<Sample>)
    ensures |r| == n
  {
    var repeated := PitchRepeat(h, s.heard, s.pitch, n, gain);
    if Joins(s) then Crossfade(h, s.overlap, repeated, Min(Min(|s.overlap|, n), OLA_WINDOW)) else repeated
  }

  function Play(s: State, frame: seq<Sample>, gain: real): State {
    s.(count := s.count + 1, gain := gain, overlap := if Joins(s) then [] else s.overlap, heard := s.heard + frame)
  }

  predicate Spent(s: State) {
    s.count + 1 > s.maxFrames
  }

  /** A packet is lost: a frame of `n` samples in its place. */
  function Conceal(h: Window, s: State, n: nat): (State, seq<Sample>) {
    if n == 0 then (s, [])
    else if Spent(s) then (s.(count := s.count + 1, gain := 0.0), Silence(n))
    else
      var gain := DecayedGain(s.gain);
      var frame := LossFrame(h, s, n, gain);
      (Play(s, frame, gain), frame)
  }

  function ResetConcealer(s: State): State {
    s.(heard := [], pitch := DefaultPitch(s.perPacket), overlap := [], count := 0, gain := 1.0)
  }
}
