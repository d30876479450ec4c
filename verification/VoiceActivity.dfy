/** Voice activity detection (src/rtp/vad.rs): the running estimate of the DC
    offset, the energy of a frame, and the machine that turns frames into the
    events of starting and stopping to talk. */
module VoiceActivity {
  import opened Words

  type Sample = x: int | -32768 <= x <= 32767

  datatype Phase = Idle | StartTalking | Talking | StopTalking

  /** `dc` is the offset estimate, scaled by 256. With `spectral` the verdict on
      a frame is not its energy but that of the WebRTC style score. */
  datatype State = State(
    threshold: u32, channels: nat, onset: u32, holdoff: u32, voiceCount: u32, silenceCount: u32,
    phase: Phase, lastEnergy: nat, spectral: bool, dc: int)

  // ---------- energy ----------

  /** The samples of channel 0 of interleaved audio. */
  function Channel0(samples: seq<Sample>, channels: nat): (r: seq<Sample>)
    requires channels > 0
    ensures |r| > 0 <==> |samples| >= channels
  {
    if |samples| < channels then [] else [samples[0]] + Channel0(samples[channels..], channels)
  }

  function Sum(xs: seq<int>): int {
    if xs == [] then 0 else Sum(xs[..|xs| - 1]) + xs[|xs| - 1]
  }

  function SumAbs(xs: seq<Sample>, offset: int): nat {
    if xs == [] then 0 else SumAbs(xs[..|xs| - 1], offset) + Abs(xs[|xs| - 1] - offset)
  }

  function DcStep(dc: int, average: int): int {
    TruncDiv(dc * 255, 256) + average
  }

  /** A frame without a whole sample per channel leaves the estimate alone. */
  function UpdateDc(dc: int, xs: seq<Sample>): int {
    if xs == [] then dc else DcStep(dc, TruncDiv(Sum(xs), |xs|))
  }

  function MeanAbs(xs: seq<Sample>, offset: int): nat {
    if xs == [] then 0 else SumAbs(xs, offset) / |xs|
  }

  // ---------- one frame ----------

  function SaturatingAdd(a: u32, b: nat): u32 {
    Min(a + b, U32_MAX)
  }

  /** The one-shot phases last one frame. */
  function Advance(p: Phase): Phase {
    match p
    case StartTalking => Talking
    case StopTalking => Idle
    case _ => p
  }

  function Voice(s: State, n: nat): State {
    var count := SaturatingAdd(s.voiceCount, n);
    s.(silenceCount := 0, voiceCount := count,
       phase := if s.phase == Idle && count > s.onset then StartTalking else s.phase)
  }

  function Silence(s: State, n: nat): State {
    var count := SaturatingAdd(s.silenceCount, n);
    s.(silenceCount := count, voiceCount := 0,
       phase := if s.phase == Talking && count > s.holdoff then StopTalking else s.phase)
  }

  /** `detected` is the verdict of the spectral score, which needs two samples. */
  function Energy(s: State, xs: seq<Sample>, detected: bool): nat {
    if !s.spectral then MeanAbs(xs, TruncDiv(s.dc, 256))
    else if |xs| >= 2 && detected then SaturatingAdd(s.threshold, 100) else 0
  }

  function Judge(s: State, xs: seq<Sample>, detected: bool): State {
    var t := s.(dc := UpdateDc(s.dc, xs));
    t.(lastEnergy := Energy(t, xs, detected))
  }

  function Process(s: State, samples: seq<Sample>, detected: bool): State
    requires s.channels > 0
  {
    var s1 := s.(phase := Advance(s.phase));
    if samples == [] then Silence(s1.(lastEnergy := 0), 0)
    else
      var xs := Channel0(samples, s.channels);
      var s2 := Judge(s1, xs, detected);
      if s2.lastEnergy > s2.threshold then Voice(s2, |xs|) else Silence(s2, |xs|)
  }

  function ResetDetector(s: State): State {
    s.(voiceCount := 0, silenceCount := 0, phase := Idle, lastEnergy := 0, dc := 0)
  }

  /** A duration in samples; the product is one of 32-bit numbers. */
  function SamplesIn(rate: u32, ms: u32): u32 {
    Low32(rate * ms) / 1000
  }

  /** While the product fits, that many samples last just the duration: one more
      would be longer. */
  lemma {:induction false} SamplesLast(rate: u32, ms: u32)
    requires rate * ms <= U32_MAX
    ensures 1000 * SamplesIn(rate, ms) <= rate * ms < 1000 * (SamplesIn(rate, ms) + 1)
  {
    Thousands(rate * ms);
  }

  lemma {:induction false} Thousands(x: nat)
    requires x <= U32_MAX
    ensures 1000 * (Low32(x) / 1000) <= x < 1000 * (Low32(x) / 1000 + 1)
  {
  }

  predicate Fresh(s: State) {
    s.channels > 0 && s.voiceCount == 0 && s.silenceCount == 0 && s.phase == Idle && s.dc == 0
  }

  // ---------- the DC estimate ----------

  lemma {:induction false} SumBounded(xs: seq<Sample>)
    ensures -32768 * |xs| <= Sum(xs) <= 32768 * |xs|
  {
    if xs == [] {
    } else {
      SumBounded(xs[..|xs| - 1]);
    }
  }

  lemma {:induction false} QuotientBounded(a: int, n: nat)
    requires n > 0 && -32768 * n <= a <= 32768 * n
    ensures -32768 <= TruncDiv(a, n) <= 32768
  {
    if a >= 0 {
      QuotientAtMost(a, n);
    } else {
      QuotientAtMost(-a, n);
    }
  }

  lemma {:induction false} QuotientAtMost(a: nat, n: nat)
    requires n > 0 && a <= 32768 * n
    ensures 0 <= a / n <= 32768
  {
    assert a == n * (a / n) + a % n;
    FactorAtMost(a / n, 32768, n);
  }

  lemma {:induction false} MulMonotone(a: nat, b: nat, n: nat)
    requires a <= b
    ensures a * n <= b * n
  {
  }

  lemma {:induction false} FactorAtMost(x: nat, y: nat, n: nat)
    requires x * n < y * n + n
    ensures x <= y
  {
    MulMonotone(y + 1, Max(x, y + 1), n);
    assert (y + 1) * n == y * n + n;
  }

  /** The estimate stays within the range of a sample, scaled. */
  lemma {:induction false} DcStaysInRange(dc: int, xs: seq<Sample>)
    requires Abs(dc) <= 256 * 32768
    ensures Abs(UpdateDc(dc, xs)) <= 256 * 32768
  {
    if xs != [] {
      SumBounded(xs);
      QuotientBounded(Sum(xs), |xs|);
    }
  }

  function DcAfter(dc: int, level: int, n: nat): int {
    if n == 0 then dc else DcStep(DcAfter(dc, level, n - 1), level)
  }

  lemma {:induction false} LearnsFromBelow(level: nat, n: nat)
    ensures var dc := DcAfter(0, level, n);
      0 <= dc <= 256 * level && (dc >= n || dc > 256 * (level - 1))
  {
    if n == 0 {
    } else {
      LearnsFromBelow(level, n - 1);
    }
  }

  lemma {:induction false} LearningMirrors(level: int, n: nat)
    ensures DcAfter(0, -level, n) == -DcAfter(0, level, n)
  {
    if n == 0 {
    } else {
      LearningMirrors(level, n - 1);
    }
  }

  /** A constant offset of either sign is learned from its side of zero and never
      overshot: from no estimate, `n` frames of it leave an estimate of magnitude at
      least `n` until all but one unit of the offset is removed, and that stays so. */
  lemma {:induction false} OffsetIsLearned(level: int, n: nat)
    ensures var dc := DcAfter(0, level, n);
      && (if level >= 0 then 0 <= dc <= 256 * level else 256 * level <= dc <= 0)
      && (Abs(dc) >= n || Abs(dc) > 256 * (Abs(level) - 1))
    ensures n >= 256 * Abs(level) ==> Abs(level - TruncDiv(DcAfter(0, level, n), 256)) <= 1
  {
    LearnsFromBelow(Abs(level), n);
    if level < 0 {
      LearningMirrors(Abs(level), n);
    }
  }

  /** What is left of a constant signal once its offset is removed. */
  lemma {:induction false} ConstantIsItsMean(xs: seq<Sample>, level: Sample, offset: int)
    requires xs != [] && forall i :: 0 <= i < |xs| ==> xs[i] == level
    ensures TruncDiv(Sum(xs), |xs|) == level && MeanAbs(xs, offset) == Abs(level - offset)
  {
    ConstantSums(xs, level, offset);
    ExactQuotient(Abs(level - offset), |xs|);
    ExactQuotient(Abs(level), |xs|);
    if level < 0 {
      assert level * |xs| == -(Abs(level) * |xs|);
    }
  }

  lemma {:induction false} ConstantSums(xs: seq<Sample>, level: Sample, offset: int)
    requires forall i :: 0 <= i < |xs| ==> xs[i] == level
    ensures Sum(xs) == level * |xs| && SumAbs(xs, offset) == Abs(level - offset) * |xs|
  {
    if xs == [] {
    } else {
      var n := |xs|;
      ConstantSums(xs[..n - 1], level, offset);
      assert level * n == level * (n - 1) + level;
      assert Abs(level - offset) * n == Abs(level - offset) * (n - 1) + Abs(level - offset);
    }
  }

  lemma {:induction false} ExactQuotient(a: nat, n: nat)
    requires n > 0
    ensures a * n / n == a
  {
    Divided(a * n, n, a, 0);
  }

  lemma {:induction false} Divided(m: nat, n: nat, q: nat, r: nat)
    requires m == n * q + r && r < n
    ensures m / n == q
  {
    assert m == n * (m / n) + m % n;
    assert n * q == q * n && n * (m / n) == (m / n) * n;
    FactorAtMost(q, m / n, n);
    FactorAtMost(m / n, q, n);
  }

  // ---------- runs ----------

  datatype Frame = Frame(samples: seq<Sample>, detected: bool)

  function After(s: State, frames: seq<Frame>): (t: State)
    requires s.channels > 0
    ensures t.channels == s.channels && t.threshold == s.threshold && t.onset == s.onset && t.holdoff == s.holdoff
  {
    if frames == [] then s
    else
      var f := frames[|frames| - 1];
      Process(After(s, frames[..|frames| - 1]), f.samples, f.detected)
  }

  /** Was the last frame of a run judged voice? */
  predicate Voiced(s: State, frames: seq<Frame>)
    requires s.channels > 0 && frames != []
  {
    frames[|frames| - 1].samples != [] && After(s, frames).lastEnergy > s.threshold
  }

  function Size(s: State, f: Frame): nat
    requires s.channels > 0
  {
    |Channel0(f.samples, s.channels)|
  }

  /** The samples of the unbroken run of voice frames that ends a run. */
  function VoiceRun(s: State, frames: seq<Frame>): nat
    requires s.channels > 0
  {
    if frames == [] || !Voiced(s, frames) then 0
    else VoiceRun(s, frames[..|frames| - 1]) + Size(s, frames[|frames| - 1])
  }

  function SilenceRun(s: State, frames: seq<Frame>): nat
    requires s.channels > 0
  {
    if frames == [] || Voiced(s, frames) then 0
    else SilenceRun(s, frames[..|frames| - 1]) + Size(s, frames[|frames| - 1])
  }

  /** One frame, its verdict known. */
  lemma {:induction false} FrameCounts(s: State, f: Frame)
    requires s.channels > 0
    ensures var t, n := Process(s, f.samples, f.detected), Size(s, f);
      var voiced := f.samples != [] && t.lastEnergy > s.threshold;
      var voice := if voiced then SaturatingAdd(s.voiceCount, n) else 0;
      var silence := if voiced then 0 else SaturatingAdd(s.silenceCount, n);
      && t.voiceCount == voice && t.silenceCount == silence
      && t.phase == (if voiced && Advance(s.phase) == Idle && voice > s.onset then StartTalking
                     else if !voiced && Advance(s.phase) == Talking && silence > s.holdoff then StopTalking
                     else Advance(s.phase))
  {
  }

  /** The counters are the samples of the current run, as far as 32 bits count. */
  lemma {:induction false} CountersAreRuns(s: State, frames: seq<Frame>)
    requires Fresh(s)
    ensures var t := After(s, frames);
      t.voiceCount == Min(VoiceRun(s, frames), U32_MAX) && t.silenceCount == Min(SilenceRun(s, frames), U32_MAX)
  {
    if frames == [] {
    } else {
      CountersAreRuns(s, frames[..|frames| - 1]);
      FrameCounts(After(s, frames[..|frames| - 1]), frames[|frames| - 1]);
    }
  }

  predicate Quiet(p: Phase) {
    p == Idle || p == StopTalking
  }

  /** When the events occur: starting, exactly when the detector was quiet and the
      voice run that ends here is longer than the onset; stopping, exactly when
      it was talking and the silence run is longer than the holdoff. */
  lemma {:induction false} EventsExactly(s: State, frames: seq<Frame>)
    requires Fresh(s) && frames != []
    ensures var before, now := After(s, frames[..|frames| - 1]).phase, After(s, frames).phase;
      && (now == StartTalking <==> Quiet(before) && Min(VoiceRun(s, frames), U32_MAX) > s.onset)
      && (now == StopTalking <==> !Quiet(before) && Min(SilenceRun(s, frames), U32_MAX) > s.holdoff)
  {
    CountersAreRuns(s, frames);
    FrameCounts(After(s, frames[..|frames| - 1]), frames[|frames| - 1]);
  }

  /** Does the `i`-th frame of a run answer `p`? */
  predicate Answers(s: State, frames: seq<Frame>, i: nat, p: Phase)
    requires s.channels > 0 && i < |frames|
  {
    After(s, frames[..i + 1]).phase == p
  }

  lemma {:induction false} MoodStep(s: State, f: Frame)
    requires s.channels > 0
    ensures var now := Process(s, f.samples, f.detected).phase;
      && (Quiet(now) != Quiet(s.phase) ==> now == if Quiet(now) then StopTalking else StartTalking)
      && (now == StartTalking ==> Quiet(s.phase)) && (now == StopTalking ==> !Quiet(s.phase))
  {
    FrameCounts(s, f);
  }

  /** One frame changes the mood by an event, and an event changes the mood. */
  lemma {:induction false} OneFrame(s: State, frames: seq<Frame>, j: nat)
    requires s.channels > 0 && j < |frames|
    ensures var before, now := Quiet(After(s, frames[..j]).phase), Quiet(After(s, frames[..j + 1]).phase);
      && (before != now ==> Answers(s, frames, j, if now then StopTalking else StartTalking))
      && (Answers(s, frames, j, StartTalking) ==> before) && (Answers(s, frames, j, StopTalking) ==> !before)
  {
    hide Process;
    assert frames[..j + 1][..j] == frames[..j] && frames[..j + 1][j] == frames[j];
    MoodStep(After(s, frames[..j]), frames[j]);
  }

  /** Between two moments of different mood lies the event that changes it. */
  lemma {:induction false} EventBetween(s: State, frames: seq<Frame>, i: nat, j: nat) returns (k: nat)
    requires s.channels > 0 && i < j <= |frames|
    requires Quiet(After(s, frames[..i]).phase) != Quiet(After(s, frames[..j]).phase)
    ensures i <= k < j
    ensures Answers(s, frames, k, if Quiet(After(s, frames[..j]).phase) then StopTalking else StartTalking)
  {
    hide After, Answers;
    OneFrame(s, frames, j - 1);
    k := j - 1;
    if Quiet(After(s, frames[..k]).phase) == Quiet(After(s, frames[..j]).phase) {
      k := EventBetween(s, frames, i, j - 1);
    }
  }

  /** Events alternate: between two of a kind lies one of the other. */
  lemma {:induction false} EventsAlternate(s: State, frames: seq<Frame>, i: nat, j: nat, p: Phase) returns (k: nat)
    requires Fresh(s) && i < j < |frames| && (p == StartTalking || p == StopTalking)
    requires Answers(s, frames, i, p) && Answers(s, frames, j, p)
    ensures i < k < j && Answers(s, frames, k, if p == StartTalking then StopTalking else StartTalking)
  {
    hide After;
    OneFrame(s, frames, j);
    k := EventBetween(s, frames, i + 1, j);
  }

  /** The first event is that of starting to talk. */
  lemma {:induction false} StartComesFirst(s: State, frames: seq<Frame>, j: nat) returns (k: nat)
    requires Fresh(s) && j < |frames| && Answers(s, frames, j, StopTalking)
    ensures k < j && Answers(s, frames, k, StartTalking)
  {
    assert frames[..0] == [];
    OneFrame(s, frames, j);
    k := EventBetween(s, frames, 0, j);
  }

  // ---------- energy and offset ----------

  /** By energy, a frame is judged by its mean distance from the offset that it has
      itself just moved, rounded down. */
  lemma {:induction false} EnergyIsMeanDistance(s: State, f: Frame)
    requires s.channels > 0 && !s.spectral && Size(s, f) > 0
    ensures var t, xs := Process(s, f.samples, f.detected), Channel0(f.samples, s.channels);
      && t.dc == DcStep(s.dc, TruncDiv(Sum(xs), |xs|))
      && t.lastEnergy == SumAbs(xs, TruncDiv(t.dc, 256)) / |xs|
  {
  }

  /** By the spectral score, it is voice exactly when the score says so, of two samples
      or more. */
  lemma {:induction false} SpectralVerdict(s: State, f: Frame)
    requires s.channels > 0 && s.spectral && f.samples != []
    ensures s.threshold < U32_MAX ==>
      (Process(s, f.samples, f.detected).lastEnergy > s.threshold <==> f.detected && Size(s, f) >= 2)
    ensures Process(s, f.samples, f.detected).lastEnergy
         == if f.detected && Size(s, f) >= 2 then Min(s.threshold + 100, U32_MAX) else 0
  {
  }

  /** A frame without a whole sample for each channel is silence of no length, and
      leaves the offset alone. */
  lemma {:induction false} EmptyFrameIsSilent(s: State, f: Frame)
    requires s.channels > 0 && Size(s, f) == 0
    ensures var t := Process(s, f.samples, f.detected);
      t.lastEnergy == 0 && t.dc == s.dc && t.voiceCount == 0 && t.silenceCount == s.silenceCount
  {
  }

  /** Frames of nothing but a constant. */
  ghost predicate Flat(s: State, frames: seq<Frame>, level: Sample)
    requires s.channels > 0
  {
    forall i :: 0 <= i < |frames| ==>
      Size(s, frames[i]) > 0
      && forall k :: 0 <= k < Size(s, frames[i]) ==> Channel0(frames[i].samples, s.channels)[k] == level
  }

  lemma {:induction false} FlatFrame(s: State, f: Frame, level: Sample)
    requires s.channels > 0 && !s.spectral && Size(s, f) > 0
    requires forall k :: 0 <= k < Size(s, f) ==> Channel0(f.samples, s.channels)[k] == level
    ensures var t := Process(s, f.samples, f.detected);
      && t.dc == DcStep(s.dc, level) && t.lastEnergy == Abs(level - TruncDiv(t.dc, 256)) && !t.spectral
  {
    hide Channel0, DcStep, Sum, SumAbs;
    var xs := Channel0(f.samples, s.channels);
    ConstantIsItsMean(xs, level, TruncDiv(DcStep(s.dc, level), 256));
    EnergyIsMeanDistance(s, f);
  }

  lemma {:induction false} FlatRun(s: State, frames: seq<Frame>, level: Sample)
    requires Fresh(s) && !s.spectral && frames != [] && Flat(s, frames, level)
    ensures var t, dc := After(s, frames), DcAfter(0, level, |frames|);
      t.dc == dc && !t.spectral && t.lastEnergy == Abs(level - TruncDiv(dc, 256))
  {
    hide Process, DcStep, Channel0;
    var n := |frames| - 1;
    assert frames[..n] + [frames[n]] == frames;
    if n > 0 {
      FlatRun(s, frames[..n], level);
    } else {
      assert After(s, frames[..n]) == s;
    }
    FlatFrame(After(s, frames[..n]), frames[n], level);
  }

  /** A constant offset is not voice: however large, once the detector has had 256
      frames for each unit of it, its energy is at most 1. */
  lemma {:induction false} OffsetIsNotVoice(s: State, frames: seq<Frame>, level: Sample)
    requires Fresh(s) && !s.spectral && s.threshold >= 1 && frames != [] && Flat(s, frames, level)
    requires |frames| >= 256 * Abs(level)
    ensures After(s, frames).lastEnergy <= 1 && !Voiced(s, frames)
  {
    hide After;
    FlatRun(s, frames, level);
    OffsetIsLearned(level, |frames|);
  }

  /** A reset detector starts again, with its settings. */
  lemma {:induction false} ResetStartsAgain(s: State)
    requires s.channels > 0
    ensures var t := ResetDetector(s);
      && Fresh(t) && t.lastEnergy == 0 && t.threshold == s.threshold && t.channels == s.channels
      && t.onset == s.onset && t.holdoff == s.holdoff && t.spectral == s.spectral
  {
  }

  // ---------- the loops ----------

  lemma {:induction false} OneFewer(x: nat, n: nat)
    requires 0 < n <= x
    ensures x / n == (x - n) / n + 1
  {
    assert x - n == n * ((x - n) / n) + (x - n) % n;
    Divided(x, n, (x - n) / n + 1, (x - n) % n);
  }

  lemma {:induction false} ChannelLength(samples: seq<Sample>, channels: nat)
    requires channels > 0
    ensures |Channel0(samples, channels)| == |samples| / channels
  {
    if |samples| >= channels {
      ChannelLength(samples[channels..], channels);
      OneFewer(|samples|, channels);
    } else {
      Divided(|samples|, channels, 0, |samples|);
    }
  }
}
