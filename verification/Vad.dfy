/** The detector as the object of src/rtp/vad.rs. The verdict of the WebRTC style
    score, which is computed in floating point, is a parameter. */
module Vad {
  import opened Words
  import opened VoiceActivity

  class VoiceActivityDetector {
    var sampleRate: u32
    var threshold: u32
    var channels: nat
    var voiceOnset: u32
    var silenceHoldoff: u32
    var voiceCount: u32
    var silenceCount: u32
    var phase: Phase
    var lastEnergy: nat
    var spectral: bool
    var dcEstimate: int

    predicate Valid()
      reads this
    {
      channels > 0
    }

    function Now(): State
      reads this
    {
      State(threshold, channels, voiceOnset, silenceHoldoff, voiceCount, silenceCount, phase, lastEnergy, spectral,
          dcEstimate)
    }

    /** The onset and the holdoff are given in milliseconds. */
    constructor (sampleRate: u32, threshold: u32, voiceOnsetMs: u32, silenceHoldoffMs: u32)
      ensures Valid() && this.sampleRate == Max(sampleRate, 8000)
      ensures Now() == State(threshold, 1, SamplesIn(Max(sampleRate, 8000), voiceOnsetMs),
                             SamplesIn(Max(sampleRate, 8000), silenceHoldoffMs), 0, 0, Idle, 0, false, 0)
    {
      var rate := if sampleRate < 8000 then 8000 else sampleRate;
      this.sampleRate := rate;
      this.threshold, channels := threshold, 1;
      voiceOnset, silenceHoldoff := SamplesIn(rate, voiceOnsetMs), SamplesIn(rate, silenceHoldoffMs);
      voiceCount, silenceCount, phase, lastEnergy := 0, 0, Idle, 0;
      spectral, dcEstimate := false, 0;
    }

    method SetVoiceOnsetMs(ms: u32)
      modifies this
      ensures Now() == old(Now()).(onset := SamplesIn(sampleRate, ms)) && sampleRate == old(sampleRate)
    {
      voiceOnset := SamplesIn(sampleRate, ms);
    }

    method SetSilenceHoldoffMs(ms: u32)
      modifies this
      ensures Now() == old(Now()).(holdoff := SamplesIn(sampleRate, ms)) && sampleRate == old(sampleRate)
    {
      silenceHoldoff := SamplesIn(sampleRate, ms);
    }

    method SetChannels(channels: nat)
      modifies this
      ensures Valid() && Now() == old(Now()).(channels := Max(channels, 1))
    {
      this.channels := if channels < 1 then 1 else channels;
    }

    method Reset()
      requires Valid()
      modifies this
      ensures Valid() && Now() == ResetDetector(old(Now()))
    {
      voiceCount, silenceCount, phase, lastEnergy, dcEstimate := 0, 0, Idle, 0, 0;
    }

    method ProcessVoice(count: nat) returns (answer: Phase)
      requires Valid()
      modifies this
      ensures Valid() && Now() == Voice(old(Now()), count) && answer == phase
    {
      silenceCount := 0;
      voiceCount := SaturatingAdd(voiceCount, count);
      if phase == Idle && voiceCount > voiceOnset {
        phase := StartTalking;
      }
      answer := phase;
    }

    method ProcessSilence(count: nat) returns (answer: Phase)
      requires Valid()
      modifies this
      ensures Valid() && Now() == Silence(old(Now()), count) && answer == phase
    {
      silenceCount := SaturatingAdd(silenceCount, count);
      voiceCount := 0;
      if phase == Talking && silenceCount > silenceHoldoff {
        phase := StopTalking;
      }
      answer := phase;
    }

    /** The sum of channel 0 and that of its distances from `offset`. */
    method SumChannel0(samples: seq<Sample>, offset: int) returns (sum: int, distance: nat)
      requires Valid()
      ensures var xs := Channel0(samples, channels); sum == Sum(xs) && distance == SumAbs(xs, offset)
    {
      ghost var xs := Channel0(samples, channels);
      ChannelLength(samples, channels);
      var count := |samples| / channels;
      var j: nat := 0;
      sum, distance := 0, 0;
      for k := 0 to count
        invariant j <= |samples| && |xs| == count && xs[k..] == Channel0(samples[j..], channels)
        invariant sum == Sum(xs[..k]) && distance == SumAbs(xs[..k], offset)
      {
        assert xs[k] == xs[k..][0] == samples[j];
        assert xs[..k + 1][..k] == xs[..k] && xs[..k + 1][k] == samples[j];
        sum := sum + samples[j];
        distance := distance + Abs(samples[j] - offset);
        assert samples[j..][channels..] == samples[j + channels..] && xs[k..][1..] == xs[k + 1..];
        j := j + channels;
      }
      assert xs[..count] == xs;
    }

    method PerChannel(samples: seq<Sample>) returns (count: nat)
      requires Valid()
      ensures count == |Channel0(samples, channels)|
    {
      ChannelLength(samples, channels);
      count := |samples| / channels;
    }

    method UpdateEstimate(samples: seq<Sample>)
      requires Valid()
      modifies this
      ensures Valid() && Now() == old(Now()).(dc := UpdateDc(old(dcEstimate), Channel0(samples, channels)))
    {
      var count := PerChannel(samples);
      if count > 0 {
        var sum, _ := SumChannel0(samples, 0);
        dcEstimate := DcStep(dcEstimate, TruncDiv(sum, count));
      }
    }

    method ComputeMeanAbs(samples: seq<Sample>, offset: int) returns (energy: nat)
      requires Valid()
      ensures energy == MeanAbs(Channel0(samples, channels), offset)
    {
      var count := PerChannel(samples);
      var _, distance := SumChannel0(samples, offset);
      energy := if count == 0 then 0 else distance / count;
    }

    method ComputeEnergy(samples: seq<Sample>, detected: bool) returns (energy: nat)
      requires Valid()
      ensures energy == Energy(Now(), Channel0(samples, channels), detected)
    {
      if spectral {
        var count := PerChannel(samples);
        energy := if count >= 2 && detected then SaturatingAdd(threshold, 100) else 0;
      } else {
        energy := ComputeMeanAbs(samples, TruncDiv(dcEstimate, 256));
      }
    }

    method Process(samples: seq<Sample>, detected: bool) returns (answer: Phase)
      requires Valid()
      modifies this
      ensures Valid() && Now() == VoiceActivity.Process(old(Now()), samples, detected) && answer == phase
    {
      match phase {
        case StartTalking => phase := Talking;
        case StopTalking => phase := Idle;
        case _ =>
      }
      if samples == [] {
        lastEnergy := 0;
        answer := ProcessSilence(0);
        return;
      }
      UpdateEstimate(samples);
      var perChannel := PerChannel(samples);
      lastEnergy := ComputeEnergy(samples, detected);
      if lastEnergy > threshold {
        answer := ProcessVoice(perChannel);
      } else {
        answer := ProcessSilence(perChannel);
      }
    }
  }
}
