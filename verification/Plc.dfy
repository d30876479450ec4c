/** The concealer as the object of src/rtp/plc.rs: a circular history buffer
    under the functions of Concealment. */
module Plc {
  import opened Words
  import opened Concealment

  lemma {:induction false} NextSlot(n: nat)
    ensures Slot(Slot(n) + 1) == Slot(n + 1)
  {
  }

  /** Positions less than a buffer length apart have different slots. */
  lemma {:induction false} SlotsDiffer(i: nat, n: nat)
    requires i < n < i + HISTORY_LEN
    ensures Slot(i) != Slot(n)
  {
    assert n - i == 390 * (n / 390 - i / 390) + (Slot(n) - Slot(i));
  }

  /** Where the reader starts, and its slots from there on. */
  lemma {:induction false} SlotOf(n: nat, count: nat, start: nat, i: nat)
    requires count <= n && count <= HISTORY_LEN
    requires start == if Slot(n) >= count then Slot(n) - count else HISTORY_LEN - (count - Slot(n))
    ensures Slot(start + i) == Slot(n - count + i)
  {
    var q := n / 390;
    assert n == 390 * q + Slot(n);
    if Slot(n) >= count {
      assert n - count + i == start + i + 390 * q;
    } else {
      assert n - count + i == start + i + 390 * (q - 1);
    }
  }

  /** A circular buffer holds the last samples of `heard`, each in the slot of its
      position. */
  ghost predicate Holds(buffer: seq<Sample>, pos: nat, valid: nat, heard: seq<Sample>) {
    && |buffer| == HISTORY_LEN && pos == Slot(|heard|) && valid == Min(|heard|, HISTORY_LEN)
    && forall i {:trigger heard[i]} :: |heard| - valid <= i < |heard| ==> buffer[Slot(i)] == heard[i]
  }

  lemma {:induction false} WrittenHolds(buffer: seq<Sample>, pos: nat, valid: nat, heard: seq<Sample>, x: Sample)
    requires Holds(buffer, pos, valid, heard)
    ensures Holds(buffer[pos := x], Slot(pos + 1), Min(valid + 1, HISTORY_LEN), heard + [x])
  {
    var n := |heard|;
    NextSlot(n);
    forall i | 0 <= i < n && n - HISTORY_LEN < i
      ensures buffer[pos := x][Slot(i)] == heard[i]
    {
      SlotsDiffer(i, n);
    }
  }

  class PacketLossConcealer {
    const window: Window
    const history: array<Sample>
    var historyPos: nat
    var historyValid: nat
    var pitchPeriod: nat
    var overlap: seq<Sample>
    var concealCount: nat
    var gain: real
    const samplesPerPacket: nat
    const maxConcealFrames: nat
    /** Everything appended since construction or the last reset. */
    ghost var heard: seq<Sample>

    ghost predicate Valid()
      reads this, history
    {
      history.Length == HISTORY_LEN && Holds(history[..], historyPos, historyValid, heard)
    }

    ghost function Now(): State
      reads this
    {
      State(heard, pitchPeriod, overlap, concealCount, gain, samplesPerPacket, maxConcealFrames)
    }

    constructor (samplesPerPacket: nat, sampleRate: nat, window: Window)
      ensures Valid() && fresh(history) && Now() == NewConcealer(samplesPerPacket, sampleRate) && this.window == window
    {
      this.window := window;
      history := new Sample[HISTORY_LEN](_ => 0);
      historyPos, historyValid, heard := 0, 0, [];
      pitchPeriod := DefaultPitch(samplesPerPacket);
      overlap, concealCount, gain := [], 0, 1.0;
      this.samplesPerPacket, maxConcealFrames := samplesPerPacket, MaxConcealFrames(samplesPerPacket, sampleRate);
    }

    method Reset()
      requires Valid()
      modifies this, history
      ensures Valid() && Now() == ResetConcealer(old(Now()))
    {
      forall i | 0 <= i < history.Length {
        history[i] := 0;
      }
      historyPos, historyValid, heard := 0, 0, [];
      pitchPeriod := DefaultPitch(samplesPerPacket);
      overlap, concealCount, gain := [], 0, 1.0;
    }

    method Write(x: Sample)
      requires Valid()
      modifies `historyPos, `historyValid, `heard, history
      ensures Valid() && heard == old(heard) + [x]
    {
      WrittenHolds(history[..], historyPos, historyValid, heard, x);
      ghost var after := history[..][historyPos := x];
      history[historyPos] := x;
      assert history[..] == after;
      historyPos := Slot(historyPos + 1);
      if historyValid < HISTORY_LEN {
        historyValid := historyValid + 1;
      }
      heard := heard + [x];
    }

    method AppendHistory(samples: seq<Sample>)
      requires Valid()
      modifies `historyPos, `historyValid, `heard, history
      ensures Valid() && heard == old(heard) + samples
    {
      for i := 0 to |samples|
        invariant Valid() && heard == old(heard) + samples[..i]
      {
        Write(samples[i]);
        assert samples[..i + 1] == samples[..i] + [samples[i]];
      }
      assert samples[..|samples|] == samples;
    }

    /** The suffix of everything appended, as far as the buffer goes back. */
    method ReadHistoryTail(count: nat) returns (out: seq<Sample>)
      requires Valid()
      ensures out == HistoryTail(heard, count)
    {
      var c := if count < historyValid then count else historyValid;
      var start := if historyPos >= c then historyPos - c else HISTORY_LEN - (c - historyPos);
      out := [];
      ghost var base := |heard| - c;
      for i := 0 to c
        invariant out == heard[base..base + i]
      {
        SlotOf(|heard|, c, start, i);
        var x := history[Slot(start + i)];
        assert x == history[..][Slot(base + i)] == heard[base + i];
        out := out + [x];
      }
      assert heard[base..|heard|] == heard[base..];
    }

    /** Fades `outgoing` out over the head of `frame`, in place. */
    method ApplyCrossfade(outgoing: seq<Sample>, frame: array<Sample>, len: nat)
      requires len <= |outgoing| && len <= frame.Length
      modifies frame
      ensures frame[..] == Crossfade(window, outgoing, old(frame[..]), len)
    {
      ghost var before, done := frame[..], [];
      for i := 0 to len
        invariant done == BlendFirst(window, outgoing, before, len, i)
        invariant forall k :: 0 <= k < i ==> frame[k] == done[k]
        invariant forall k :: i <= k < frame.Length ==> frame[k] == before[k]
      {
        var x := Blend(window, outgoing[i] as real, frame[i] as real, i, len);
        frame[i] := x;
        done := done + [x];
      }
      assert frame[..] == done + before[len..];
    }

    method Crossfaded(outgoing: seq<Sample>, samples: seq<Sample>, len: nat) returns (r: seq<Sample>)
      requires len <= |outgoing| && len <= |samples|
      ensures r == Crossfade(window, outgoing, samples, len)
    {
      var frame := new Sample[|samples|](i requires 0 <= i < |samples| => samples[i]);
      assert frame[..] == samples;
      ApplyCrossfade(outgoing, frame, len);
      r := frame[..];
    }

    method BuildOlaPeriod(previous: seq<Sample>, current: seq<Sample>) returns (r: seq<Sample>)
      ensures r == OlaPeriod(window, previous, current)
    {
      var shorter := if |current| < |previous| then |current| else |previous|;
      var ola := if OLA_WINDOW < shorter then OLA_WINDOW else shorter;
      assert previous[|previous| - ola..] == Last(previous, ola);
      r := Crossfaded(previous[|previous| - ola..], current, ola);
    }

    method Scale(template: seq<Sample>, gain: real, pos: nat) returns (s: real)
      requires pos < |template|
      ensures s == Scaled(template, gain)[pos]
    {
      ScaledAt(template, gain, pos);
      s := template[pos] as real * gain;
    }

    method RepeatSample(template: seq<Sample>, gain: real, pos: nat, first: bool) returns (x: Sample)
      requires pos < |template|
      ensures x == RepeatedAt(window, Scaled(template, gain), pos, first)
    {
      var ola := if OLA_WINDOW < |template| then OLA_WINDOW else |template|;
      var s := Scale(template, gain, pos);
      if pos < ola && !first {
        var before := Scale(template, gain, |template| - ola + pos);
        x := Blend(window, before, s, pos, ola);
      } else {
        x := Clamp16(s);
      }
    }

    method FindTemplate() returns (template: seq<Sample>)
      requires Valid()
      ensures template == Template(window, heard, pitchPeriod)
    {
      var need := pitchPeriod * 2;
      var tail := ReadHistoryTail(if need < historyValid then need else historyValid);
      var last := if |tail| >= pitchPeriod then tail[|tail| - pitchPeriod..] else tail;
      var previous := if |tail| >= need then tail[|tail| - need..|tail| - pitchPeriod] else last;
      assert last == Last(tail, pitchPeriod) && previous == PreviousPeriod(tail, pitchPeriod);
      template := last;
      if previous != last {
        template := BuildOlaPeriod(previous, last);
      }
    }

    method Tile(template: seq<Sample>, n: nat, gain: real) returns (out: seq<Sample>)
      requires template != []
      ensures out == Tiled(window, Scaled(template, gain), n)
    {
      ghost var period := Scaled(template, gain);
      out := [];
      for i := 0 to n
        invariant out == Tiled(window, period, i)
      {
        var x := RepeatSample(template, gain, i % |template|, i < |template|);
        assert x == Repeated(window, period, i);
        out := out + [x];
      }
    }

    method GeneratePitchRepeat(n: nat, gain: real) returns (out: seq<Sample>)
      requires Valid()
      ensures out == PitchRepeat(window, heard, pitchPeriod, n, gain)
    {
      if pitchPeriod == 0 || historyValid == 0 {
        out := Silence(n);
      } else {
        var template := FindTemplate();
        out := Tile(template, n, gain);
      }
    }

    /** `correlated` is the answer of the autocorrelation search. */
    method DetectPitch(correlated: nat) returns (pitch: nat)
      requires Valid()
      ensures pitch == Concealment.DetectPitch(heard, samplesPerPacket, correlated)
    {
      if historyValid < PITCH_MAX * 2 {
        return DefaultPitch(samplesPerPacket);
      }
      var buf := ReadHistoryTail(PITCH_MAX * 2);
      assert buf[|buf| - PITCH_MAX..] == Last(heard, PITCH_MAX);
      pitch := if Silent(buf[|buf| - PITCH_MAX..]) then DefaultPitch(samplesPerPacket) else correlated;
    }

    /** What goes to the history for a packet received. */
    method BlendRecovered(samples: seq<Sample>) returns (written: seq<Sample>)
      ensures written == Written(window, Now(), samples)
    {
      written := samples;
      if concealCount > 0 && overlap != [] {
        var shorter := if |overlap| < |samples| then |overlap| else |samples|;
        written := Crossfaded(overlap, samples, if shorter < OLA_WINDOW then shorter else OLA_WINDOW);
      }
    }

    method Update(samples: seq<Sample>, correlated: nat)
      requires Valid()
      modifies this, history
      ensures Valid() && Now() == Concealment.Update(window, old(Now()), samples, correlated)
    {
      if samples == [] {
        return;
      }
      var toWrite := BlendRecovered(samples);
      if concealCount > 0 {
        overlap := GeneratePitchRepeat(OLA_WINDOW, gain);
      }
      AppendHistory(toWrite);
      if concealCount == 0 {
        var tail := if OLA_WINDOW < |toWrite| then OLA_WINDOW else |toWrite|;
        overlap := toWrite[|toWrite| - tail..];
      }
      concealCount, gain := 0, 1.0;
      pitchPeriod := DetectPitch(correlated);
    }

    method Conceal(n: nat) returns (frame: seq<Sample>)
      requires Valid()
      modifies this, history
      ensures Valid() && (Now(), frame) == Concealment.Conceal(window, old(Now()), n)
    {
      hide PitchRepeat, Crossfade;
      if n == 0 {
        return [];
      }
      concealCount := concealCount + 1;
      if concealCount > maxConcealFrames {
        gain := 0.0;
        return Silence(n);
      }
      gain := DecayedGain(gain);
      frame := GeneratePitchRepeat(n, gain);
      if concealCount == 1 && overlap != [] {
        var shorter := if |overlap| < n then |overlap| else n;
        frame := Crossfaded(overlap, frame, if shorter < OLA_WINDOW then shorter else OLA_WINDOW);
        overlap := [];
      }
      AppendHistory(frame);
    }
  }
}
