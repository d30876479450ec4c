/** How fast a long loss fades: each concealed frame is repeated from the one
    before it and scaled again, so the gains of the frames multiply. */
module ConcealmentDecay {
  import opened Words
  import opened Concealment
  import opened ConcealmentRuns

  function Triangle(k: nat): (t: nat)
    ensures 2 * t == k * (k + 1)
  {
    if k == 0 then 0 else Triangle(k - 1) + k
  }

  /** The peak `p` times 0.96 to the power 1 + 2 + ... + k, and half a unit of
      rounding for each of `k` frames. */
  function Level(p: nat, k: nat): real {
    Decay(p as real, Triangle(k)) + k as real / 2.0
  }

  // ---------- arithmetic ----------

  lemma {:induction false} DecayShifts(x: real, a: nat, b: nat)
    ensures Decay(Decay(x, a), b) == Decay(x, a + b)
  {
    if b == 0 {
    } else {
      DecayShifts(x, a, b - 1);
    }
  }

  lemma {:induction false} DecayAdds(x: real, e: real, k: nat)
    requires e >= 0.0
    ensures Decay(x, k) <= Decay(x + e, k) <= Decay(x, k) + e
  {
    if k == 0 {
    } else {
      DecayAdds(x, e, k - 1);
    }
  }

  lemma {:induction false} DecayScales(x: real, k: nat)
    ensures x * Decay(1.0, k) == Decay(x, k)
  {
    if k == 0 {
    } else {
      DecayScales(x, k - 1);
      GainScales(x, Decay(1.0, k - 1));
    }
  }

  lemma {:induction false} GainScales(x: real, gain: real)
    ensures x * DecayedGain(gain) == DecayedGain(x * gain)
  {
  }

  lemma {:induction false} DecayGrows(x: real, y: real, k: nat)
    requires x <= y
    ensures Decay(x, k) <= Decay(y, k)
  {
    DecayAdds(x, y - x, k);
  }

  /** One more frame, from samples at the level before. */
  lemma {:induction false} NextFrameLevel(p: nat, k: nat, q: nat)
    requires q as real <= Level(p, k)
    ensures Decay(q as real, k + 1) + 0.5 <= Level(p, k + 1)
  {
    hide Decay;
    var x := Decay(p as real, Triangle(k));
    DecayGrows(q as real, x + k as real / 2.0, k + 1);
    DecayAdds(x, k as real / 2.0, k + 1);
    DecayShifts(p as real, Triangle(k), k + 1);
  }

  lemma {:induction false} LevelIsPositive(p: nat, k: nat)
    ensures Level(p, k) >= 0.0
  {
    DecayAttenuates(p, Triangle(k));
  }

  // ---------- the tail that a frame repeats ----------

  ghost predicate Fades(s: seq<Sample>, level: real) {
    forall i :: 0 <= i < |s| ==> Abs(s[i]) as real <= level
  }

  lemma {:induction false} FadesIsBelow(s: seq<Sample>, level: real)
    requires level >= 0.0 && Fades(s, level)
    ensures Below(s, level.Floor)
  {
  }

  lemma {:induction false} NearFades(s: seq<Sample>, level: real, next: real)
    requires Near(s, level) && level + 0.5 <= next
    ensures Fades(s, next)
  {
  }

  lemma {:induction false} SuffixFades(before: seq<Sample>, frame: seq<Sample>, m: nat, n: nat, level: real)
    requires m + n <= |frame| && Fades(frame[m..], level)
    ensures Fades(Last(before + frame, n), level)
  {
    assert Last(before + frame, n) == frame[m..][|frame| - m - n..];
  }

  lemma {:induction false} TailParts(heard: seq<Sample>, tail: seq<Sample>, end: seq<Sample>, pitch: nat)
    requires PITCH_MIN <= pitch <= PITCH_MAX && pitch + OLA_WINDOW <= |heard|
    requires tail == Last(heard, pitch * 2) && end == Last(heard, pitch + OLA_WINDOW)
    ensures |tail| >= pitch && Last(tail, pitch) == end[OLA_WINDOW..]
    ensures var previous := PreviousPeriod(tail, pitch);
      previous == Last(tail, pitch) || (|previous| == pitch && Last(previous, OLA_WINDOW) == end[..OLA_WINDOW])
  {
    var n, m := |heard|, pitch + OLA_WINDOW;
    assert Last(tail, pitch) == heard[n - pitch..] == end[OLA_WINDOW..];
    if n >= pitch * 2 {
      var previous := PreviousPeriod(tail, pitch);
      assert previous == heard[n - pitch * 2..n - pitch];
      assert Last(previous, OLA_WINDOW) == heard[n - m..n - pitch] == end[..OLA_WINDOW];
    }
  }

  lemma {:induction false} JoinedOfEnd(h: Window, previous: seq<Sample>, current: seq<Sample>, p: nat)
    requires Below(current, p) && OLA_WINDOW <= |current| == |previous| && Below(Last(previous, OLA_WINDOW), p)
    ensures Below(Joined(h, previous, current), p)
  {
    hide Crossfade;
    CrossfadeBelow(h, Last(previous, OLA_WINDOW), current, OLA_WINDOW, p);
  }

  /** A template is made of the last period and the sixteen samples before it. */
  lemma {:induction false} TemplateOfTail(h: Window, heard: seq<Sample>, pitch: nat, p: nat)
    requires PITCH_MIN <= pitch <= PITCH_MAX && pitch + OLA_WINDOW <= |heard|
    requires Below(Last(heard, pitch + OLA_WINDOW), p)
    ensures Below(Template(h, heard, pitch), p)
  {
    hide OlaPeriod, PreviousPeriod;
    var tail, end := Last(heard, pitch * 2), Last(heard, pitch + OLA_WINDOW);
    assert tail == HistoryTail(heard, Min(pitch * 2, Min(|heard|, HISTORY_LEN)));
    TailParts(heard, tail, end, pitch);
    var previous, current := PreviousPeriod(tail, pitch), Last(tail, pitch);
    assert Below(current, p) && Below(end[..OLA_WINDOW], p);
    if previous != current {
      JoinedOfEnd(h, previous, current, p);
    }
  }

  lemma {:induction false} FrameOfTail(h: Window, heard: seq<Sample>, pitch: nat, n: nat, k: nat, q: nat)
    requires PITCH_MIN <= pitch <= PITCH_MAX && pitch + OLA_WINDOW <= |heard|
    requires Below(Last(heard, pitch + OLA_WINDOW), q)
    ensures Near(PitchRepeat(h, heard, pitch, n, Decay(1.0, k)), Decay(q as real, k))
  {
    hide Template, Tiled, Scaled, Below, Near, Within;
    var gain, level := Decay(1.0, k), Decay(q as real, k);
    TemplateOfTail(h, heard, pitch, q);
    DecayAttenuates(q, k);
    ScaledWithin(Template(h, heard, pitch), gain, q, level);
    TiledNear(h, Scaled(Template(h, heard, pitch), gain), n, q, level);
  }

  // ---------- the loss ----------

  /** Frames that hold what the next template needs, the first behind its blend
      with the last good audio. */
  ghost predicate LongFrames(ns: seq<nat>, pitch: nat) {
    forall i :: 0 <= i < |ns| ==> ns[i] >= pitch + if i == 0 then 2 * OLA_WINDOW else OLA_WINDOW
  }

  /** The part of frame `k` of a loss that fades. */
  function Fading(frame: seq<Sample>, k: nat): seq<Sample> {
    if k == 1 && |frame| >= OLA_WINDOW then frame[OLA_WINDOW..] else frame
  }

  ghost predicate TailFades(t: State, p: nat, k: nat) {
    t.pitch + OLA_WINDOW <= |t.heard| && Fades(Last(t.heard, t.pitch + OLA_WINDOW), Level(p, k))
  }

  lemma {:induction false} FrameIsKept(h: Window, t: State, n: nat, p: nat, k: nat)
    requires n > 0 && !Spent(t) && n >= t.pitch + if k == 1 then 2 * OLA_WINDOW else OLA_WINDOW
    requires Fades(Fading(Conceal(h, t, n).1, k), Level(p, k))
    ensures TailFades(Conceal(h, t, n).0, p, k) && Conceal(h, t, n).0.pitch == t.pitch
  {
    hide LossFrame, Level, Fades;
    var (u, frame) := Conceal(h, t, n);
    assert u.heard == t.heard + frame;
    SuffixFades(t.heard, frame, if k == 1 then OLA_WINDOW else 0, t.pitch + OLA_WINDOW, Level(p, k)) by {
      assert frame[0..] == frame;
    }
  }

  lemma {:induction false} NextLossFades(h: Window, t: State, n: nat, p: nat, k: nat)
    requires t.count == k > 0 && n > 0 && !Spent(t) && t.gain == Decay(1.0, k) && TailFades(t, p, k)
    requires PITCH_MIN <= t.pitch <= PITCH_MAX
    ensures Fades(Conceal(h, t, n).1, Level(p, k + 1))
  {
    hide PitchRepeat, Level, Fades, Near;
    var q := Level(p, k).Floor;
    LevelIsPositive(p, k);
    FadesIsBelow(Last(t.heard, t.pitch + OLA_WINDOW), Level(p, k));
    NextDecay(k);
    FrameOfTail(h, t.heard, t.pitch, n, k + 1, q);
    NextFrameLevel(p, k, q);
    NearFades(Conceal(h, t, n).1, Decay(q as real, k + 1), Level(p, k + 1));
  }

  lemma {:induction false} FirstLossLevel(h: Window, t: State, n: nat, p: nat)
    requires Bounded(t, p) && t.gain == 1.0 && n >= OLA_WINDOW && !Spent(t)
    ensures Fades(Fading(Conceal(h, t, n).1, 1), Level(p, 1))
  {
    hide Conceal, Bounded, Near, Fades;
    DecayAttenuates(p, 1);
    NextDecay(0);
    FirstLossFades(h, t, n, p, Decay(p as real, 1));
    assert Triangle(1) == 1;
    NearFades(Conceal(h, t, n).1[OLA_WINDOW..], Decay(p as real, 1), Level(p, 1));
  }

  /** The gains of a long loss multiply: with frames a little longer than the pitch
      period, the k-th frame stays below the peak times 0.96 to the k(k + 1)/2, but
      for half a unit of rounding a frame. */
  lemma {:induction false} LossCompounds(h: Window, s: State, ns: seq<nat>, p: nat)
    requires s.count == 0 && s.gain == 1.0 && Bounded(s, p) && PITCH_MIN <= s.pitch <= PITCH_MAX
    requires LongFrames(ns, s.pitch) && ns != [] && |ns| <= s.maxFrames
    ensures var t := After(h, s, Losses(ns)); t.pitch == s.pitch && TailFades(t, p, |ns|)
    ensures Fades(Fading(LastOutput(h, s, Losses(ns)), |ns|), Level(p, |ns|))
  {
    hide Conceal, Decay, Level, Fades, Bounded, TailFades;
    var before, n := ns[..|ns| - 1], ns[|ns| - 1];
    var t := After(h, s, Losses(before));
    LastLoss(h, s, ns);
    LossSoFar(h, s, before);
    if before == [] {
      FirstLossLevel(h, s, n, p);
    } else {
      LossCompounds(h, s, before, p);
      NextLossFades(h, t, n, p, |before|);
      assert Fading(Conceal(h, t, n).1, |ns|) == Conceal(h, t, n).1;
    }
    FrameIsKept(h, t, n, p, |ns|);
    assert Losses(ns)[..|ns| - 1] == Losses(before);
  }
}
