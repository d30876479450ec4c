/** What a concealed frame is, sample by sample: the last period heard, its joints
    blended, its gain a power of 0.96; and what the next loss will start from. */
module ConcealmentShape {
  import opened Words
  import opened Concealment
  import opened ConcealmentRuns

  // ---------- rounding and blending ----------

  /** Rounding is to the nearest, halves away from zero, kept to 16 bits. */
  lemma {:induction false} RoundsToNearest(v: real)
    ensures Round(v) as real - 0.5 <= v <= Round(v) as real + 0.5
    ensures v > 0.0 ==> v < Round(v) as real + 0.5
    ensures v < 0.0 ==> v > Round(v) as real - 0.5
    ensures -32768.5 < v < 32767.5 ==> Clamp16(v) == Round(v)
    ensures v >= 32767.5 ==> Clamp16(v) == 32767
    ensures v <= -32768.5 ==> Clamp16(v) == -32768
  {
  }

  /** A blend goes from the outgoing signal to the incoming one as its weight goes from
      0 to 1; a blend of one sample is the incoming one. */
  lemma {:induction false} BlendIs(h: Window, a: real, b: real, i: nat, len: nat)
    ensures len >= 2 ==> Blend(h, a, b, i, len) == Clamp16(Mix(a, b, h(i, len)))
    ensures len <= 1 ==> Blend(h, a, b, i, len) == Clamp16(b)
  {
    hide Clamp16, Mix;
    MixEnds(a, b);
  }

  lemma {:induction false} MixEnds(a: real, b: real)
    ensures Mix(a, b, 0.0) == a && Mix(a, b, 1.0) == b
  {
  }

  /** A mix lies on the line from the one to the other, as far along as its weight. */
  lemma {:induction false} MixIs(a: real, b: real, w: real)
    ensures Mix(a, b, w) == a + (b - a) * w
  {
    assert a * (1.0 - w) == a - a * w;
    assert (b - a) * w == b * w - a * w;
  }

  /** Each of the first samples of a crossfade is a blend, and the others are the
      incoming signal's. */
  lemma {:induction false} CrossfadeAt(h: Window, outgoing: seq<Sample>, frame: seq<Sample>, len: nat, i: nat)
    requires len <= |outgoing| && len <= |frame| && i < |frame|
    ensures Crossfade(h, outgoing, frame, len)[i]
         == if i < len then Blend(h, outgoing[i] as real, frame[i] as real, i, len) else frame[i]
  {
    if i < len {
      BlendFirstAt(h, outgoing, frame, len, len, i);
    }
  }

  // ---------- the template ----------

  /** The period to repeat starts with a blend from the end of the period before, when
      two periods have been heard and they differ. */
  lemma {:induction false} TemplateHead(h: Window, heard: seq<Sample>, pitch: nat, i: nat)
    requires PITCH_MIN <= pitch <= PITCH_MAX && pitch * 2 <= |heard| && i < 16
    ensures var n := |heard|;
      var last, previous := heard[n - pitch..], heard[n - pitch * 2..n - pitch];
      && |Template(h, heard, pitch)| == pitch
      && Template(h, heard, pitch)[i]
         == if last == previous then last[i]
            else Blend(h, previous[pitch - 16 + i] as real, last[i] as real, i, 16)
  {
    hide Joined, Blend, Template;
    var n := |heard|;
    TemplateOfTwo(h, heard, pitch);
    JoinedHead(h, heard[n - pitch * 2..n - pitch], heard[n - pitch..], i);
  }

  lemma {:induction false} TemplateOfTwo(h: Window, heard: seq<Sample>, pitch: nat)
    requires PITCH_MIN <= pitch <= PITCH_MAX && pitch * 2 <= |heard|
    ensures var n := |heard|;
      Template(h, heard, pitch) == Joined(h, heard[n - pitch * 2..n - pitch], heard[n - pitch..])
  {
    hide Joined, HistoryTail, PreviousPeriod, Last;
    var tail := TailOfTwo(heard, pitch);
    HalvesOf(tail, heard, pitch);
  }

  lemma {:induction false} TailOfTwo(heard: seq<Sample>, pitch: nat) returns (tail: seq<Sample>)
    requires PITCH_MIN <= pitch <= PITCH_MAX && pitch * 2 <= |heard|
    ensures tail == HistoryTail(heard, Min(pitch * 2, Min(|heard|, HISTORY_LEN))) == heard[|heard| - pitch * 2..]
  {
    tail := heard[|heard| - pitch * 2..];
  }

  lemma {:induction false} HalvesOf(tail: seq<Sample>, heard: seq<Sample>, pitch: nat)
    requires pitch * 2 <= |heard| && tail == heard[|heard| - pitch * 2..]
    ensures Last(tail, pitch) == heard[|heard| - pitch..]
    ensures PreviousPeriod(tail, pitch) == heard[|heard| - pitch * 2..|heard| - pitch]
  {
  }

  lemma {:induction false} JoinedHead(h: Window, previous: seq<Sample>, last: seq<Sample>, i: nat)
    requires i < 16 <= |last| == |previous|
    ensures Joined(h, previous, last)[i]
         == if last == previous then last[i] else Blend(h, previous[|last| - 16 + i] as real, last[i] as real, i, 16)
  {
    hide Crossfade, Blend;
    if last != previous {
      CrossfadeAt(h, Last(previous, 16), last, 16, i);
    }
  }

  /** With less than two periods heard, the last one is repeated as it is. */
  lemma {:induction false} TemplateOfShortHistory(h: Window, heard: seq<Sample>, pitch: nat)
    requires PITCH_MIN <= pitch <= PITCH_MAX && |heard| < pitch * 2
    ensures Template(h, heard, pitch) == if |heard| <= pitch then heard else heard[|heard| - pitch..]
  {
    hide OlaPeriod;
    var tail := HistoryTail(heard, Min(pitch * 2, Min(|heard|, HISTORY_LEN)));
    assert tail == heard;
  }

  /** At the start of each repetition but the first, the end of the one before is
      blended in, both with the gain. */
  lemma {:induction false} JointIsBlended(
    h: Window, heard: seq<Sample>, pitch: nat, n: nat, gain: real, i: nat, pos: nat)
    requires PITCH_MIN <= pitch <= PITCH_MAX && pitch <= |heard| && pitch <= i < n && pos == i % pitch < 16
    ensures var t := Template(h, heard, pitch);
      |t| == pitch
      && PitchRepeat(h, heard, pitch, n, gain)[i]
         == Blend(h, Share(t[pitch - 16 + pos] as real, gain), Share(t[pos] as real, gain), pos, 16)
  {
    hide Template, Blend, Scaled, Repeated, Tiled, Share;
    TemplateIsLastPeriod(h, heard, pitch);
    var t := Template(h, heard, pitch);
    ScaledShare(t, gain, pitch - 16 + pos);
    ScaledShare(t, gain, pos);
    TiledAt(h, Scaled(t, gain), n, i);
    JointOf(h, Scaled(t, gain), i, pos);
    assert PitchRepeat(h, heard, pitch, n, gain) == Tiled(h, Scaled(t, gain), n);
  }

  lemma {:induction false} ScaledShare(template: seq<Sample>, gain: real, k: nat)
    requires k < |template|
    ensures Scaled(template, gain)[k] == Share(template[k] as real, gain)
  {
    ScaledAt(template, gain, k);
  }

  lemma {:induction false} JointOf(h: Window, period: seq<real>, i: nat, pos: nat)
    requires 16 <= |period| <= i && pos == i % |period| < 16
    ensures Repeated(h, period, i) == Blend(h, period[|period| - 16 + pos], period[pos], pos, 16)
  {
    hide Blend;
  }

  // ---------- a loss ----------

  function Power(k: nat): real {
    if k == 0 then 1.0 else 0.96 * Power(k - 1)
  }

  lemma {:induction false} DecayIsPower(x: real, k: nat)
    ensures Decay(x, k) == x * Power(k)
  {
    if k == 0 {
    } else {
      DecayIsPower(x, k - 1);
      assert x * Power(k - 1) * 0.96 == x * (0.96 * Power(k - 1));
    }
  }

  lemma {:induction false} NoJoinAfterFirst(h: Window, s: State, ns: seq<nat>)
    requires s.count == 0 && s.gain == 1.0 && Audible(ns) && ns != [] && |ns| < s.maxFrames
    ensures var t := After(h, s, Losses(ns));
      && !Joins(t) && !Spent(t) && t.gain == Power(|ns|) && t.pitch == s.pitch
  {
    hide After, Power, Decay;
    LossSoFar(h, s, ns);
    DecayIsPower(1.0, |ns|);
    PitchLasts(h, s, ns);
  }

  lemma {:induction false} PitchLasts(h: Window, s: State, ns: seq<nat>)
    ensures After(h, s, Losses(ns)).pitch == s.pitch
  {
    hide LossFrame;
    if ns == [] {
    } else {
      assert Losses(ns)[..|ns| - 1] == Losses(ns[..|ns| - 1]);
      PitchLasts(h, s, ns[..|ns| - 1]);
    }
  }

  /** Frame `k` of a loss, from the second on: away from its joints every sample is the
      one a period before in what was played last, times 0.96 to the k. */
  lemma {:induction false} LossRepeatsPeriod(
    h: Window, s: State, ns: seq<nat>, n: nat, i: nat, pos: nat)
    requires s.count == 0 && s.gain == 1.0 && Audible(ns) && ns != [] && |ns| < s.maxFrames && n > 0
    requires PITCH_MIN <= s.pitch <= PITCH_MAX && i < n && 16 <= pos < s.pitch && pos == i % s.pitch
    requires s.pitch <= |After(h, s, Losses(ns)).heard|
    ensures var t := After(h, s, Losses(ns));
      var (r, frame) := Conceal(h, t, n);
      && |frame| == n && r.heard == t.heard + frame
      && frame[i] == Scaled16(t.heard[|t.heard| - s.pitch + pos], Power(|ns| + 1))
  {
    hide PitchRepeat, Power, After, Scaled16;
    NoJoinAfterFirst(h, s, ns);
    var t := After(h, s, Losses(ns));
    PowerStep(|ns|);
    assert Conceal(h, t, n).1 == PitchRepeat(h, t.heard, t.pitch, n, Power(|ns| + 1));
    var x := t.heard[|t.heard| - s.pitch + pos];
    RepeatsLastPeriod(h, t.heard, s.pitch, n, Power(|ns| + 1), i, pos, x);
  }

  lemma {:induction false} PowerStep(k: nat)
    ensures DecayedGain(Power(k)) == Power(k + 1)
  {
  }

  /** The first frame of a loss starts from the overlap, over at most 16 samples. */
  lemma {:induction false} FirstFrameBlends(h: Window, s: State, n: nat, i: nat)
    requires s.count == 0 && s.gain == 1.0 && s.maxFrames >= 1 && s.overlap != [] && i < n
    ensures var len := Min(Min(|s.overlap|, n), 16);
      var (r, frame) := Conceal(h, s, n);
      var repeated := PitchRepeat(h, s.heard, s.pitch, n, 0.96);
      && |frame| == n && r.overlap == []
      && frame[i] == if i < len then Blend(h, s.overlap[i] as real, repeated[i] as real, i, len) else repeated[i]
  {
    hide PitchRepeat, Blend;
    assert DecayedGain(1.0) == 0.96;
    CrossfadeAt(h, s.overlap, PitchRepeat(h, s.heard, s.pitch, n, 0.96), Min(Min(|s.overlap|, n), 16), i);
  }

  // ---------- good audio ----------

  /** What good audio leaves behind in any run: itself, at the end of what was heard;
      the gain at 1 and the loss over; and for the next loss to start from, its own last
      16 samples, or after a loss, what the concealment would have gone on with. */
  lemma {:induction false} AudioIsKept(
    h: Window, perPacket: nat, sampleRate: nat, events: seq<Event>, samples: seq<Sample>, correlated: nat)
    requires samples != []
    ensures var t := After(h, NewConcealer(perPacket, sampleRate), events);
      var r := Update(h, t, samples, correlated);
      && r.heard == t.heard + samples && r.count == 0 && r.gain == 1.0
      && r.overlap == (if t.count == 0 then (if |samples| <= 16 then samples else samples[|samples| - 16..])
                       else PitchRepeat(h, t.heard, t.pitch, 16, t.gain))
      && r.pitch == (if |r.heard| >= 320 && exists i :: |r.heard| - 160 <= i < |r.heard| && r.heard[i] != 0
                     then correlated else Min(Max(perPacket, 20), 160))
      && r.perPacket == perPacket && r.maxFrames == MaxConcealFrames(perPacket, sampleRate)
  {
    hide PitchRepeat;
    NoOverlapInLoss(h, perPacket, sampleRate, events);
    CleanAudio(h, perPacket, sampleRate, events);
    var t := After(h, NewConcealer(perPacket, sampleRate), events);
    if |t.heard + samples| >= 320 {
      LastIsLoud(t.heard + samples);
    }
    assert Written(h, t, samples) == samples;
  }

  lemma {:induction false} CleanAudio(h: Window, perPacket: nat, sampleRate: nat, events: seq<Event>)
    ensures var t := After(h, NewConcealer(perPacket, sampleRate), events);
      t.count == 0 ==> t.gain == 1.0
  {
    hide LossFrame, PitchRepeat;
    if events == [] {
    } else {
      CleanAudio(h, perPacket, sampleRate, events[..|events| - 1]);
    }
  }

  lemma {:induction false} LastIsLoud(heard: seq<Sample>)
    requires |heard| >= 320
    ensures !Silent(Last(heard, 160)) <==> exists i :: |heard| - 160 <= i < |heard| && heard[i] != 0
  {
    var last := Last(heard, 160);
    if i :| 0 <= i < 160 && last[i] != 0 {
      assert heard[|heard| - 160 + i] != 0;
    }
    if i :| |heard| - 160 <= i < |heard| && heard[i] != 0 {
      assert last[i - (|heard| - 160)] != 0;
    }
  }

  /** A new concealer has heard nothing, and conceals with silence. */
  lemma {:induction false} NothingHeardIsSilence(h: Window, perPacket: nat, sampleRate: nat, n: nat, i: nat)
    requires i < n
    ensures Conceal(h, NewConcealer(perPacket, sampleRate), n).1[i] == 0
    ensures NewConcealer(perPacket, sampleRate).pitch == Min(Max(perPacket, 20), 160)
    ensures perPacket == 0 ==> NewConcealer(perPacket, sampleRate).maxFrames == 3
    ensures sampleRate == 0 ==> NewConcealer(perPacket, sampleRate) == NewConcealer(perPacket, 8000)
  {
    SilenceIsZero(n, i);
  }

  lemma {:induction false} SilenceIsZero(n: nat, i: nat)
    requires i < n
    ensures Silence(n)[i] == 0
  {
    if i < n - 1 {
      SilenceIsZero(n - 1, i);
    }
  }

  /** Nothing fed or asked for changes nothing. */
  lemma {:induction false} NothingDoesNothing(h: Window, s: State, correlated: nat)
    ensures Update(h, s, [], correlated) == s && Conceal(h, s, 0) == (s, [])
  {
  }

  /** The blend that recovery never comes to: it would fade the overlap out over the
      first samples of the recovered audio. */
  lemma {:induction false} UnreachedBlend(h: Window, s: State, samples: seq<Sample>, i: nat)
    requires s.count > 0 && s.overlap != [] && i < |samples|
    ensures var len := Min(Min(|s.overlap|, |samples|), 16);
      Written(h, s, samples)[i]
      == if i < len then Blend(h, s.overlap[i] as real, samples[i] as real, i, len) else samples[i]
  {
    hide Crossfade, Blend;
    CrossfadeAt(h, s.overlap, samples, Min(Min(|s.overlap|, |samples|), 16), i);
  }
}
