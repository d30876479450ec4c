/** Whole runs of the concealer: it never amplifies, it fades to silence, and
    what it blends. */
module ConcealmentRuns {
  import opened Words
  import opened Concealment

  // ---------- arithmetic of one sample ----------

  lemma {:induction false} Product(x: real, y: real, w: real)
    requires x <= y && w >= 0.0
    ensures x * w <= y * w
  {
  }

  lemma {:induction false} SharesGrow(x: real, y: real, w: real)
    requires x <= y && w >= 0.0
    ensures Share(x, w) <= Share(y, w)
  {
    Product(x, y, w);
  }

  lemma {:induction false} SharesOfWhole(p: real, w: real)
    ensures Share(p, 1.0 - w) + Share(p, w) == p
  {
  }

  lemma {:induction false} ShareNegates(x: real, w: real)
    ensures Share(-x, w) == -Share(x, w)
  {
  }

  lemma {:induction false} MixAtMost(a: real, b: real, w: real, p: real)
    requires a <= p && b <= p && 0.0 <= w <= 1.0
    ensures Mix(a, b, w) <= p
  {
    hide Share;
    SharesGrow(a, p, 1.0 - w);
    SharesGrow(b, p, w);
    SharesOfWhole(p, w);
  }

  lemma {:induction false} MixBounded(a: real, b: real, w: real, p: real)
    requires -p <= a <= p && -p <= b <= p && 0.0 <= w <= 1.0
    ensures -p <= Mix(a, b, w) <= p
  {
    hide Share;
    MixAtMost(a, b, w, p);
    MixAtMost(-a, -b, w, p);
    ShareNegates(a, 1.0 - w);
    ShareNegates(b, w);
  }

  /** Samples of magnitude up to `p` come out below `level` with this gain. */
  ghost predicate Attenuates(gain: real, p: nat, level: real) {
    gain >= 0.0 && 0.0 <= p as real * gain <= level <= p as real
  }

  lemma {:induction false} Magnitude(x: real, q: real, gain: real, level: real)
    requires -q <= x <= q && gain >= 0.0 && q * gain <= level
    ensures -level <= x * gain <= level
  {
    Product(x, q, gain);
    Product(-x, q, gain);
    assert (-x) * gain == -(x * gain);
  }

  lemma {:induction false} GainBounded(x: Sample, gain: real, p: nat, level: real)
    requires Abs(x) <= p && Attenuates(gain, p, level)
    ensures -level <= x as real * gain <= level
  {
    Magnitude(x as real, p as real, gain, level);
  }

  lemma {:induction false} GainAttenuates(gain: real, p: nat)
    requires 0.0 <= gain <= 1.0
    ensures Attenuates(gain, p, p as real)
  {
    Product(0.0, p as real, gain);
    Product(gain, 1.0, p as real);
    assert gain * p as real == p as real * gain;
  }

  /** Rounding to a whole sample and clamping do not leave a whole bound. */
  lemma {:induction false} ClampBounded(v: real, p: nat)
    requires -(p as real) <= v <= p as real
    ensures Abs(Clamp16(v)) <= p
  {
  }

  /** Rounding moves a sample by half a unit at most. */
  lemma {:induction false} ClampNear(v: real, p: real)
    requires -p <= v <= p
    ensures Abs(Clamp16(v)) as real <= p + 0.5
  {
  }

  lemma {:induction false} ClampExact(x: Sample)
    ensures Clamp16(x as real) == x
  {
    assert (x as real + 0.5).Floor == x as int && (-(x as real) + 0.5).Floor == -(x as int);
  }

  lemma {:induction false} BlendBelow(h: Window, a: Sample, b: Sample, i: nat, len: nat, p: nat)
    requires Abs(a) <= p && Abs(b) <= p
    ensures Abs(Blend(h, a as real, b as real, i, len)) <= p
  {
    MixBounded(a as real, b as real, Weight(h, i, len), p as real);
    ClampBounded(Mix(a as real, b as real, Weight(h, i, len)), p);
  }

  lemma {:induction false} BlendNear(h: Window, a: real, b: real, i: nat, len: nat, p: nat, level: real)
    requires -level <= a <= level && -level <= b <= level <= p as real
    ensures var x := Blend(h, a, b, i, len); Abs(x) <= p && Abs(x) as real <= level + 0.5
  {
    MixBounded(a, b, Weight(h, i, len), level);
    ClampNear(Mix(a, b, Weight(h, i, len)), level);
    ClampBounded(Mix(a, b, Weight(h, i, len)), p);
  }

  // ---------- signals below a peak ----------

  ghost predicate Below(s: seq<Sample>, p: nat) {
    forall i :: 0 <= i < |s| ==> Abs(s[i]) <= p
  }

  lemma {:induction false} BlendFirstBelow(
    h: Window, outgoing: seq<Sample>, frame: seq<Sample>, len: nat, k: nat, p: nat)
    requires k <= len && len <= |outgoing| && len <= |frame| && Below(outgoing, p) && Below(frame, p)
    ensures Below(BlendFirst(h, outgoing, frame, len, k), p)
  {
    if k == 0 {
    } else {
      BlendFirstBelow(h, outgoing, frame, len, k - 1, p);
      BlendBelow(h, outgoing[k - 1], frame[k - 1], k - 1, len, p);
    }
  }

  lemma {:induction false} CrossfadeBelow(h: Window, outgoing: seq<Sample>, frame: seq<Sample>, len: nat, p: nat)
    requires len <= |outgoing| && len <= |frame| && Below(outgoing, p) && Below(frame, p)
    ensures Below(Crossfade(h, outgoing, frame, len), p)
  {
    BlendFirstBelow(h, outgoing, frame, len, len, p);
  }

  lemma {:induction false} BlendFirstAt(h: Window, outgoing: seq<Sample>, frame: seq<Sample>, len: nat, k: nat, i: nat)
    requires i < k <= len && len <= |outgoing| && len <= |frame|
    ensures BlendFirst(h, outgoing, frame, len, k)[i] == Blend(h, outgoing[i] as real, frame[i] as real, i, len)
  {
    if i == k - 1 {
    } else {
      BlendFirstAt(h, outgoing, frame, len, k - 1, i);
    }
  }

  lemma {:induction false} BlendEnds(h: Window, a: Sample, b: Sample, len: nat)
    requires len >= 2
    ensures Blend(h, a as real, b as real, 0, len) == a && Blend(h, a as real, b as real, len - 1, len) == b
  {
    ClampExact(a);
    ClampExact(b);
    assert Mix(a as real, b as real, 0.0) == a as real && Mix(a as real, b as real, 1.0) == b as real;
    assert h(0, len) == 0.0 && h(len - 1, len) == 1.0;
  }

  /** A crossfade starts on the outgoing signal, ends on the incoming one, and
      leaves the rest of the frame alone. */
  lemma {:induction false} CrossfadeJoins(h: Window, outgoing: seq<Sample>, frame: seq<Sample>, len: nat)
    requires 2 <= len <= |outgoing| && len <= |frame|
    ensures var r := Crossfade(h, outgoing, frame, len);
      r[0] == outgoing[0] && r[len - 1] == frame[len - 1] && r[len..] == frame[len..]
  {
    BlendFirstAt(h, outgoing, frame, len, len, 0);
    BlendFirstAt(h, outgoing, frame, len, len, len - 1);
    BlendEnds(h, outgoing[0], frame[0], len);
    BlendEnds(h, outgoing[len - 1], frame[len - 1], len);
  }

  lemma {:induction false} LastBelow(s: seq<Sample>, n: nat, p: nat)
    requires Below(s, p)
    ensures Below(Last(s, n), p)
  {
  }

  lemma {:induction false} JoinedBelow(h: Window, previous: seq<Sample>, current: seq<Sample>, p: nat)
    requires Below(previous, p) && Below(current, p)
    ensures Below(Joined(h, previous, current), p)
  {
    var ola := Min(OLA_WINDOW, Min(|current|, |previous|));
    LastBelow(previous, ola, p);
    CrossfadeBelow(h, Last(previous, ola), current, ola, p);
  }

  lemma {:induction false} PreviousBelow(tail: seq<Sample>, pitch: nat, p: nat)
    requires Below(tail, p)
    ensures Below(PreviousPeriod(tail, pitch), p)
  {
  }

  lemma {:induction false} TemplateBelow(h: Window, heard: seq<Sample>, pitch: nat, p: nat)
    requires Below(heard, p)
    ensures Below(Template(h, heard, pitch), p)
  {
    var n := Min(pitch * 2, Min(|heard|, HISTORY_LEN));
    var tail := HistoryTail(heard, n);
    LastBelow(heard, Min(n, HISTORY_LEN), p);
    LastBelow(tail, pitch, p);
    PreviousBelow(tail, pitch, p);
    JoinedBelow(h, PreviousPeriod(tail, pitch), Last(tail, pitch), p);
  }

  ghost predicate Near(s: seq<Sample>, level: real) {
    forall i :: 0 <= i < |s| ==> Abs(s[i]) as real <= level + 0.5
  }

  ghost predicate Within(period: seq<real>, level: real) {
    forall i :: 0 <= i < |period| ==> -level <= period[i] <= level
  }

  lemma {:induction false} ScaledWithin(template: seq<Sample>, gain: real, p: nat, level: real)
    requires Below(template, p) && Attenuates(gain, p, level)
    ensures Within(Scaled(template, gain), level)
  {
    hide Attenuates;
    if template == [] {
    } else {
      ScaledWithin(template[..|template| - 1], gain, p, level);
      GainBounded(template[|template| - 1], gain, p, level);
    }
  }

  /** One repeated sample: below the peak, and below the level but for rounding. */
  lemma {:induction false} RepeatedNear(h: Window, period: seq<real>, pos: nat, first: bool, p: nat, level: real)
    requires pos < |period| && Within(period, level) && 0.0 <= level <= p as real
    ensures var x := RepeatedAt(h, period, pos, first); Abs(x) <= p && Abs(x) as real <= level + 0.5
  {
    var ola := Min(OLA_WINDOW, |period|);
    if pos < ola && !first {
      BlendNear(h, period[|period| - ola + pos], period[pos], pos, ola, p, level);
    } else {
      ClampNear(period[pos], level);
      ClampBounded(period[pos], p);
    }
  }

  lemma {:induction false} TiledNear(h: Window, period: seq<real>, n: nat, p: nat, level: real)
    requires period != [] && Within(period, level) && 0.0 <= level <= p as real
    ensures Below(Tiled(h, period, n), p) && Near(Tiled(h, period, n), level)
  {
    if n == 0 {
    } else {
      TiledNear(h, period, n - 1, p, level);
      RepeatedNear(h, period, (n - 1) % |period|, n - 1 < |period|, p, level);
    }
  }

  lemma {:induction false} SilenceIsSilent(n: nat, p: nat, level: real)
    requires level >= 0.0
    ensures Below(Silence(n), p) && Near(Silence(n), level)
  {
    if n == 0 {
    } else {
      SilenceIsSilent(n - 1, p, level);
    }
  }

  lemma {:induction false} PitchRepeatNear(
    h: Window, heard: seq<Sample>, pitch: nat, n: nat, gain: real, p: nat, level: real)
    requires Below(heard, p) && Attenuates(gain, p, level)
    ensures Below(PitchRepeat(h, heard, pitch, n, gain), p) && Near(PitchRepeat(h, heard, pitch, n, gain), level)
  {
    if pitch == 0 || heard == [] {
      SilenceIsSilent(n, p, level);
    } else {
      var template := Template(h, heard, pitch);
      TemplateBelow(h, heard, pitch, p);
      ScaledWithin(template, gain, p, level);
      TiledNear(h, Scaled(template, gain), n, p, level);
    }
  }

  lemma {:induction false} PitchRepeatBelow(h: Window, heard: seq<Sample>, pitch: nat, n: nat, gain: real, p: nat)
    requires Below(heard, p) && 0.0 <= gain <= 1.0
    ensures Below(PitchRepeat(h, heard, pitch, n, gain), p)
  {
    GainAttenuates(gain, p);
    PitchRepeatNear(h, heard, pitch, n, gain, p, p as real);
  }

  // ---------- runs ----------

  datatype Event =
    | Fed(samples: seq<Sample>, correlated: nat)
    | Lost(n: nat)

  function Step(h: Window, s: State, e: Event): (State, seq<Sample>) {
    match e
    case Fed(samples, correlated) => (Update(h, s, samples, correlated), [])
    case Lost(n) => Conceal(h, s, n)
  }

  function After(h: Window, s: State, events: seq<Event>): State {
    if events == [] then s else Step(h, After(h, s, events[..|events| - 1]), events[|events| - 1]).0
  }

  /** What the last event of a run plays out. */
  function LastOutput(h: Window, s: State, events: seq<Event>): seq<Sample>
    requires events != []
  {
    Step(h, After(h, s, events[..|events| - 1]), events[|events| - 1]).1
  }

  /** The largest magnitude ever fed. */
  function PeakOf(samples: seq<Sample>): (p: nat)
    ensures Below(samples, p)
    ensures p == 0 || exists i :: 0 <= i < |samples| && Abs(samples[i]) == p
  {
    if samples == [] then 0
    else
      var rest, x := PeakOf(samples[..|samples| - 1]), Abs(samples[|samples| - 1]);
      if rest >= x then rest else x
  }

  function Peak(events: seq<Event>): nat {
    if events == [] then 0
    else
      var e := events[|events| - 1];
      Max(Peak(events[..|events| - 1]), if e.Fed? then PeakOf(e.samples) else 0)
  }

  ghost predicate Bounded(s: State, p: nat) {
    Below(s.heard, p) && Below(s.overlap, p) && 0.0 <= s.gain <= 1.0
  }

  lemma {:induction false} WrittenBelow(h: Window, s: State, samples: seq<Sample>, p: nat)
    requires Below(s.overlap, p) && Below(samples, p)
    ensures Below(Written(h, s, samples), p) && Below(Last(Written(h, s, samples), OLA_WINDOW), p)
  {
    CrossfadeBelow(h, s.overlap, samples, Min(Min(|s.overlap|, |samples|), OLA_WINDOW), p);
    LastBelow(Written(h, s, samples), OLA_WINDOW, p);
  }

  lemma {:induction false} JoinBelow(a: seq<Sample>, b: seq<Sample>, p: nat)
    requires Below(a, p) && Below(b, p)
    ensures Below(a + b, p)
  {
  }

  lemma {:induction false} UpdateBounded(h: Window, s: State, samples: seq<Sample>, correlated: nat, p: nat)
    requires Bounded(s, p) && Below(samples, p)
    ensures Bounded(Update(h, s, samples, correlated), p)
  {
    PitchRepeatBelow(h, s.heard, s.pitch, OLA_WINDOW, s.gain, p);
    WrittenBelow(h, s, samples, p);
    JoinBelow(s.heard, Written(h, s, samples), p);
  }

  lemma {:induction false} FrameBelow(h: Window, s: State, n: nat, gain: real, p: nat)
    requires Bounded(s, p) && 0.0 <= gain <= 1.0
    ensures Below(LossFrame(h, s, n, gain), p)
  {
    PitchRepeatBelow(h, s.heard, s.pitch, n, gain, p);
    CrossfadeBelow(h, s.overlap, PitchRepeat(h, s.heard, s.pitch, n, gain), Min(Min(|s.overlap|, n), OLA_WINDOW), p);
  }

  lemma {:induction false} PlayBounded(s: State, frame: seq<Sample>, gain: real, p: nat)
    requires Bounded(s, p) && Below(frame, p) && 0.0 <= gain <= 1.0
    ensures Bounded(Play(s, frame, gain), p)
  {
    JoinBelow(s.heard, frame, p);
  }

  lemma {:induction false} FrameBounded(h: Window, s: State, n: nat, gain: real, p: nat)
    requires Bounded(s, p) && 0.0 <= gain <= 1.0
    ensures Below(LossFrame(h, s, n, gain), p) && Bounded(Play(s, LossFrame(h, s, n, gain), gain), p)
  {
    FrameBelow(h, s, n, gain, p);
    PlayBounded(s, LossFrame(h, s, n, gain), gain, p);
  }

  lemma {:induction false} ConcealBounded(h: Window, s: State, n: nat, p: nat)
    requires Bounded(s, p)
    ensures Bounded(Conceal(h, s, n).0, p) && Below(Conceal(h, s, n).1, p)
  {
    if Spent(s) {
      SilenceIsSilent(n, p, 0.0);
    } else {
      FrameBounded(h, s, n, DecayedGain(s.gain), p);
    }
  }

  lemma {:induction false} MoreRoom(s: State, p: nat, q: nat)
    requires Bounded(s, p) && p <= q
    ensures Bounded(s, q)
  {
  }

  lemma {:induction false} StepBounded(h: Window, s: State, e: Event, p: nat)
    requires Bounded(s, p) && (e.Fed? ==> Below(e.samples, p))
    ensures Bounded(Step(h, s, e).0, p) && Below(Step(h, s, e).1, p)
  {
    match e
    case Fed(samples, correlated) => UpdateBounded(h, s, samples, correlated, p);
    case Lost(n) => ConcealBounded(h, s, n, p);
  }

  /** Concealment never amplifies: after any run from a fresh concealer, no sample
      in the history, in the overlap buffer or played out is larger than the
      largest ever fed. */
  lemma {:induction false} NeverAmplifies(h: Window, perPacket: nat, sampleRate: nat, events: seq<Event>)
    ensures var s := NewConcealer(perPacket, sampleRate);
      Bounded(After(h, s, events), Peak(events)) && (events != [] ==> Below(LastOutput(h, s, events), Peak(events)))
  {
    if events == [] {
    } else {
      var s, before, e := NewConcealer(perPacket, sampleRate), events[..|events| - 1], events[|events| - 1];
      NeverAmplifies(h, perPacket, sampleRate, before);
      MoreRoom(After(h, s, before), Peak(before), Peak(events));
      StepBounded(h, After(h, s, before), e, Peak(events));
    }
  }

  // ---------- recovery ----------

  /** While a loss lasts the overlap buffer is empty. */
  lemma {:induction false} NoOverlapInLoss(h: Window, perPacket: nat, sampleRate: nat, events: seq<Event>)
    ensures var t := After(h, NewConcealer(perPacket, sampleRate), events);
      t.maxFrames == MaxConcealFrames(perPacket, sampleRate) && t.perPacket == perPacket
          && (t.count > 0 ==> t.overlap == [])
  {
    if events == [] {
    } else {
      NoOverlapInLoss(h, perPacket, sampleRate, events[..|events| - 1]);
    }
  }

  /** The blend that `update` has for the first packet after a loss is never
      reached: recovered audio goes to the history as it came. */
  lemma {:induction false} RecoveryIsNotBlended(
    h: Window, perPacket: nat, sampleRate: nat, events: seq<Event>, samples: seq<Sample>, correlated: nat)
    ensures var t := After(h, NewConcealer(perPacket, sampleRate), events);
      Update(h, t, samples, correlated).heard == t.heard + samples
  {
    NoOverlapInLoss(h, perPacket, sampleRate, events);
  }

  /** A reset concealer is a new one. */
  lemma {:induction false} ResetIsNew(h: Window, perPacket: nat, sampleRate: nat, events: seq<Event>)
    ensures ResetConcealer(After(h, NewConcealer(perPacket, sampleRate), events)) == NewConcealer(perPacket, sampleRate)
  {
    NoOverlapInLoss(h, perPacket, sampleRate, events);
  }

  // ---------- what is repeated ----------

  /** Behind its blended head the template is the last pitch period heard. */
  lemma {:induction false} TemplateIsLastPeriod(h: Window, heard: seq<Sample>, pitch: nat)
    requires PITCH_MIN <= pitch <= PITCH_MAX && pitch <= |heard|
    ensures var t := Template(h, heard, pitch);
      |t| == pitch && t[OLA_WINDOW..] == heard[|heard| - pitch + OLA_WINDOW..]
  {
    var n := Min(pitch * 2, Min(|heard|, HISTORY_LEN));
    var tail := HistoryTail(heard, n);
    assert tail == heard[|heard| - n..];
    assert Last(tail, pitch) == heard[|heard| - pitch..];
    JoinKeepsTail(h, PreviousPeriod(tail, pitch), Last(tail, pitch));
  }

  lemma {:induction false} JoinKeepsTail(h: Window, previous: seq<Sample>, current: seq<Sample>)
    requires |current| >= OLA_WINDOW && |previous| == |current|
    ensures Joined(h, previous, current)[OLA_WINDOW..] == current[OLA_WINDOW..]
  {
  }

  lemma {:induction false} TiledAt(h: Window, period: seq<real>, n: nat, i: nat)
    requires period != [] && i < n
    ensures Tiled(h, period, n)[i] == Repeated(h, period, i)
  {
    if i == n - 1 {
    } else {
      TiledAt(h, period, n - 1, i);
    }
  }

  lemma {:induction false} TemplateAt(h: Window, heard: seq<Sample>, pitch: nat, pos: nat)
    requires PITCH_MIN <= pitch <= PITCH_MAX && pitch <= |heard| && OLA_WINDOW <= pos < pitch
    ensures |Template(h, heard, pitch)| == pitch && Template(h, heard, pitch)[pos] == heard[|heard| - pitch + pos]
  {
    hide Template;
    var t := Template(h, heard, pitch);
    TemplateIsLastPeriod(h, heard, pitch);
    assert t[pos] == t[OLA_WINDOW..][pos - OLA_WINDOW] == heard[|heard| - pitch + OLA_WINDOW..][pos - OLA_WINDOW];
  }

  lemma {:induction false} PlainSample(h: Window, period: seq<real>, n: nat, i: nat, pos: nat, v: real)
    requires OLA_WINDOW <= pos < |period| && i < n && pos == i % |period| && period[pos] == v
    ensures Tiled(h, period, n)[i] == Clamp16(v)
  {
    TiledAt(h, period, n, i);
  }

  /** A sample times a gain, as it is played. */
  function Scaled16(x: Sample, gain: real): Sample {
    Clamp16(x as real * gain)
  }

  lemma {:induction false} ScaledValue(template: seq<Sample>, gain: real, pos: nat) returns (v: real)
    requires pos < |template|
    ensures Scaled(template, gain)[pos] == v && Clamp16(v) == Scaled16(template[pos], gain)
  {
    hide Clamp16, Scaled;
    v := template[pos] as real * gain;
    ScaledAt(template, gain, pos);
  }

  /** Away from the joints a concealed frame is the last pitch period heard, over
      and over, with the gain applied. */
  lemma {:induction false} RepeatsLastPeriod(
    h: Window, heard: seq<Sample>, pitch: nat, n: nat, gain: real, i: nat, pos: nat, x: Sample)
    requires PITCH_MIN <= pitch <= PITCH_MAX && pitch <= |heard| && i < n
    requires OLA_WINDOW <= pos < pitch && pos == i % pitch && x == heard[|heard| - pitch + pos]
    ensures PitchRepeat(h, heard, pitch, n, gain)[i] == Scaled16(x, gain)
  {
    hide Template, Scaled, Tiled, Scaled16, Clamp16;
    TemplateAt(h, heard, pitch, pos);
    var template := Template(h, heard, pitch);
    var v := ScaledValue(template, gain, pos);
    PlainSample(h, Scaled(template, gain), n, i, pos, v);
  }

  // ---------- a long loss ----------

  function Decay(x: real, k: nat): real {
    if k == 0 then x else DecayedGain(Decay(x, k - 1))
  }

  lemma {:induction false} DecayAttenuates(p: nat, k: nat)
    ensures Attenuates(Decay(1.0, k), p, Decay(p as real, k))
  {
    if k == 0 {
    } else {
      DecayAttenuates(p, k - 1);
      NextLevel(Decay(1.0, k - 1), p, Decay(p as real, k - 1));
    }
  }

  lemma {:induction false} NextLevel(gain: real, p: nat, level: real)
    requires Attenuates(gain, p, level)
    ensures Attenuates(DecayedGain(gain), p, DecayedGain(level))
  {
    assert p as real * DecayedGain(gain) == DecayedGain(p as real * gain);
  }

  function Losses(ns: seq<nat>): (events: seq<Event>)
    ensures |events| == |ns|
  {
    seq(|ns|, i requires 0 <= i < |ns| => Lost(ns[i]))
  }

  ghost predicate Audible(ns: seq<nat>) {
    forall i :: 0 <= i < |ns| ==> ns[i] > 0
  }

  lemma {:induction false} OneMoreLoss(h: Window, t: State, n: nat)
    requires n > 0
    ensures var u := Conceal(h, t, n).0;
      u.count == t.count + 1 && u.maxFrames == t.maxFrames && u.gain == if Spent(t) then 0.0 else DecayedGain(t.gain)
  {
  }

  lemma {:induction false} LossSoFar(h: Window, s: State, ns: seq<nat>)
    requires s.count == 0 && s.gain == 1.0 && Audible(ns)
    ensures var t := After(h, s, Losses(ns));
      t.count == |ns| && t.maxFrames == s.maxFrames && t.gain == if |ns| <= s.maxFrames then Decay(1.0, |ns|) else 0.0
  {
    if ns == [] {
    } else {
      assert Losses(ns)[..|ns| - 1] == Losses(ns[..|ns| - 1]);
      LossSoFar(h, s, ns[..|ns| - 1]);
      OneMoreLoss(h, After(h, s, Losses(ns[..|ns| - 1])), ns[|ns| - 1]);
    }
  }

  lemma {:induction false} LossBounded(h: Window, s: State, ns: seq<nat>, p: nat)
    requires Bounded(s, p)
    ensures Bounded(After(h, s, Losses(ns)), p)
  {
    if ns == [] {
    } else {
      assert Losses(ns)[..|ns| - 1] == Losses(ns[..|ns| - 1]);
      LossBounded(h, s, ns[..|ns| - 1], p);
      ConcealBounded(h, After(h, s, Losses(ns[..|ns| - 1])), ns[|ns| - 1], p);
    }
  }

  lemma {:induction false} FrameFades(h: Window, t: State, n: nat, gain: real, p: nat, level: real)
    requires Bounded(t, p) && !Joins(t) && Attenuates(gain, p, level)
    ensures Near(LossFrame(h, t, n, gain), level)
  {
    PitchRepeatNear(h, t.heard, t.pitch, n, gain, p, level);
  }

  lemma {:induction false} LossFades(h: Window, t: State, n: nat, p: nat, level: real)
    requires Bounded(t, p) && t.count > 0 && n > 0 && !Spent(t) && Attenuates(DecayedGain(t.gain), p, level)
    ensures Near(Conceal(h, t, n).1, level)
  {
    hide LossFrame, Play;
    FrameFades(h, t, n, DecayedGain(t.gain), p, level);
  }

  lemma {:induction false} NearFrom(frame: seq<Sample>, m: nat, level: real)
    requires Near(frame, level)
    ensures m <= |frame| ==> Near(frame[m..], level)
  {
  }

  /** Behind the blend with the last good audio the first frame fades too. */
  lemma {:induction false} FirstFrameFades(h: Window, t: State, n: nat, gain: real, p: nat, level: real)
    requires Bounded(t, p) && Attenuates(gain, p, level)
    ensures Near(LossFrame(h, t, n, gain)[Min(OLA_WINDOW, n)..], level)
  {
    hide PitchRepeat, BlendFirst, Near;
    PitchRepeatNear(h, t.heard, t.pitch, n, gain, p, level);
    var frame, m := PitchRepeat(h, t.heard, t.pitch, n, gain), Min(OLA_WINDOW, n);
    NearFrom(frame, m, level);
    if Joins(t) {
      var len := Min(Min(|t.overlap|, n), OLA_WINDOW);
      assert Crossfade(h, t.overlap, frame, len)[m..] == frame[len..][m - len..] == frame[m..];
    }
  }

  lemma {:induction false} FirstLossFades(h: Window, t: State, n: nat, p: nat, level: real)
    requires Bounded(t, p) && n > 0 && !Spent(t) && Attenuates(DecayedGain(t.gain), p, level)
    ensures |Conceal(h, t, n).1| == n && Near(Conceal(h, t, n).1[Min(OLA_WINDOW, n)..], level)
  {
    hide LossFrame, Play;
    FirstFrameFades(h, t, n, DecayedGain(t.gain), p, level);
  }

  lemma {:induction false} ConcealLength(h: Window, t: State, n: nat)
    ensures |Conceal(h, t, n).1| == n && (n > 0 && Spent(t) ==> Conceal(h, t, n).1 == Silence(n))
  {
  }

  lemma {:induction false} LastLoss(h: Window, s: State, ns: seq<nat>)
    requires ns != []
    ensures LastOutput(h, s, Losses(ns)) == Conceal(h, After(h, s, Losses(ns[..|ns| - 1])), ns[|ns| - 1]).1
  {
    assert Losses(ns)[..|ns| - 1] == Losses(ns[..|ns| - 1]);
  }

  /** In a loss of any number of frames: the k-th, while allowed, stays below the
      peak times 0.96 to the k-th, give or take rounding, the first one from behind
      its blend with the last good audio; those after the allowed number are
      silent; and none exceeds the peak. */
  lemma {:induction false} LongLossFades(h: Window, s: State, ns: seq<nat>, p: nat)
    requires s.count == 0 && s.gain == 1.0 && Bounded(s, p) && Audible(ns) && ns != []
    ensures var out, k := LastOutput(h, s, Losses(ns)), |ns|;
      && |out| == ns[k - 1] && Below(out, p)
      && if k > s.maxFrames then out == Silence(|out|)
         else Near(if k == 1 then out[Min(OLA_WINDOW, |out|)..] else out, Decay(p as real, k))
  {
    hide Conceal, Decay, Near, Below, Bounded, Attenuates;
    var before, n := ns[..|ns| - 1], ns[|ns| - 1];
    var t := After(h, s, Losses(before));
    LastLoss(h, s, ns);
    LossSoFar(h, s, before);
    LossBounded(h, s, before, p);
    ConcealBounded(h, t, n, p);
    ConcealLength(h, t, n);
    NextDecay(|before|);
    if |ns| <= s.maxFrames {
      DecayAttenuates(p, |ns|);
      if |ns| == 1 {
        FirstLossFades(h, t, n, p, Decay(p as real, |ns|));
      } else {
        LossFades(h, t, n, p, Decay(p as real, |ns|));
      }
    }
  }

  lemma {:induction false} NextDecay(k: nat)
    ensures Decay(1.0, k + 1) == DecayedGain(Decay(1.0, k))
  {
  }

  /** The allowed number is the least, and at least one, whose frames last sixty
      milliseconds. */
  lemma {:induction false} AllowedFrames(perPacket: nat, sampleRate: nat)
    requires perPacket > 0 && sampleRate > 0
    ensures var k := MaxConcealFrames(perPacket, sampleRate);
      k >= 1 && 1000 * perPacket * k >= 60 * sampleRate && (k > 1 ==> 1000 * perPacket * (k - 1) < 60 * sampleRate)
  {
    CeilingDivision(60 * sampleRate, 1000 * perPacket);
  }

  lemma {:induction false} CeilingDivision(a: nat, b: nat)
    requires a > 0 && b > 0
    ensures var q := (a + b - 1) / b; q >= 1 && b * q >= a && b * (q - 1) < a
  {
    var q := (a + b - 1) / b;
    assert a + b - 1 == b * q + (a + b - 1) % b;
    assert b * (q - 1) == b * q - b;
  }
}
