/** The call quality score of an RTCP session (src/rtp/rtcp.rs), a simplified
    E-model of ITU-T G.107, over exact real numbers. */
module RtcpQuality {
  import opened Words
  import opened RtcpCodec

  function Clamp(x: real, low: real, high: real): (r: real)
    requires low <= high
    ensures low <= r <= high
  {
    if x < low then low else if x > high then high else x
  }

  /** Loss in percent, from the packet counts. */
  function LossPercent(expected: nat, received: nat): (r: real)
    ensures 0.0 <= r <= 100.0
  {
    if expected == 0 || received >= expected then 0.0
    else
      LossBound(expected, received);
      (expected - received) as real / expected as real * 100.0
  }

  lemma {:induction false} LossBound(expected: nat, received: nat)
    requires received < expected
    ensures 0.0 <= (expected - received) as real / expected as real * 100.0 <= 100.0
  {
    var x, y := (expected - received) as real, expected as real;
    Quotients(0.0, x, y);
    Quotients(x, y, y);
    assert y / y == 1.0;
  }

  lemma {:induction false} Quotients(x: real, y: real, e: real)
    requires x <= y && e > 0.0
    ensures x / e <= y / e
  {
  }

  /** Delay impairment: nothing below 100 ms, steeper above 177.3 ms. */
  function DelayImpairment(delay: real): real {
    if delay < 100.0 then 0.0
    else 0.024 * delay + 0.11 * (if delay > 177.3 then delay - 177.3 else 0.0)
  }

  /** Equipment impairment of G.711 under packet loss. */
  function LossImpairment(loss: real): real
    requires loss >= 0.0
  {
    95.0 * loss / (loss + 25.1)
  }

  function RFactor(loss: real, delay: real): (r: real)
    requires loss >= 0.0
    ensures 0.0 <= r <= 100.0
  {
    Clamp(93.2 - DelayImpairment(delay) - LossImpairment(loss), 0.0, 100.0)
  }

  /** The cubic that turns an R-factor into a mean opinion score. */
  function Cubic(r: real): real {
    1.0 + 0.035 * r + r * (r - 60.0) * (100.0 - r) * 0.000007
  }

  function MosOfR(r: real): real {
    if r <= 0.0 then 1.0 else if r > 100.0 then 4.5 else Clamp(Cubic(r), 1.0, 4.5)
  }

  function Mos(loss: real, delay: real): real
    requires loss >= 0.0
  {
    MosOfR(RFactor(loss, delay))
  }

  /** The raw cubic is below 1 for small R: without the clamp a worse R-factor
      would score better. */
  lemma {:induction false} CubicDips()
    ensures Cubic(3.0) < Cubic(1.0) < Cubic(0.0) == 1.0
  {
  }

  /** The slope of the cubic between two points. */
  function Slope(a: real, b: real): real {
    160.0 * (a + b) - (a * a + a * b + b * b) - 6000.0
  }

  lemma {:induction false} CubicExpanded(r: real)
    ensures Cubic(r) == 1.0 + 0.035 * r + 0.000007 * (160.0 * (r * r) - r * r * r - 6000.0 * r)
  {
    assert r * (r - 60.0) * (100.0 - r) == 160.0 * (r * r) - r * r * r - 6000.0 * r;
  }

  lemma {:induction false} Squares(a: real, b: real)
    ensures b * b - a * a == (b - a) * (a + b)
  {
  }

  lemma {:induction false} Cubes(a: real, b: real)
    ensures b * b * b - a * a * a == (b - a) * (a * a + a * b + b * b)
  {
  }

  lemma {:induction false} SlopeTimes(x: real, y: real, z: real)
    ensures x * (160.0 * y - z - 6000.0) == 160.0 * (x * y) - x * z - 6000.0 * x
  {
  }

  lemma {:induction false} Distributed(x: real, y: real)
    ensures x * (0.035 + 0.000007 * y) == 0.035 * x + 0.000007 * (x * y)
  {
  }

  lemma {:induction false} CubicDifference(a: real, b: real)
    ensures Cubic(b) - Cubic(a) == (b - a) * (0.035 + 0.000007 * Slope(a, b))
  {
    hide Cubic;
    CubicExpanded(a);
    CubicExpanded(b);
    Squares(a, b);
    Cubes(a, b);
    SlopeTimes(b - a, a + b, a * a + a * b + b * b);
    Distributed(b - a, Slope(a, b));
  }

  lemma {:induction false} Positive(x: real, y: real)
    requires x >= 0.0 && y >= 0.0
    ensures x * y >= 0.0
  {
  }

  lemma {:induction false} RoomProduct(x: real, y: real)
    requires x <= 100.0 && y >= 6.0
    ensures 100.0 * y - 600.0 - x * y + 6.0 * x >= 0.0
  {
    Positive(100.0 - x, y - 6.0);
    assert (100.0 - x) * (y - 6.0) == 100.0 * y - 600.0 - x * y + 6.0 * x;
  }

  lemma {:induction false} SlopeOfSquares(a: real, b: real, aa: real, ab: real, bb: real)
    requires 6.0 <= a <= b && 106.0 * a - 600.0 - aa >= 0.0 && 106.0 * b - 600.0 - bb >= 0.0
    requires 100.0 * a - 600.0 - ab + 6.0 * b >= 0.0
    ensures 160.0 * (a + b) - (aa + ab + bb) - 6000.0 >= -5000.0
  {
  }

  /** Where the cubic is above 1, it rises from there on. */
  lemma {:induction false} SlopeAbove(a: real, b: real)
    requires 6.0 <= a <= b <= 100.0
    ensures Slope(a, b) >= -5000.0
  {
    RoomProduct(a, a);
    RoomProduct(b, b);
    RoomProduct(b, a);
    assert b * a == a * b;
    SlopeOfSquares(a, b, a * a, a * b, b * b);
  }

  lemma {:induction false} BelowOne(a: real)
    requires 0.0 <= a <= 6.0
    ensures Cubic(a) <= 1.0
  {
    Positive(a, 6.0 - a);
    assert (60.0 - a) * (100.0 - a) == 6000.0 - 160.0 * a + a * a;
    Positive(a, a * a + 160.0 * (6.0 - a));
    assert a * (a - 60.0) * (100.0 - a) == -a * (6000.0 - 160.0 * a + a * a);
    assert a * (a * a + 160.0 * (6.0 - a)) == a * (a * a - 160.0 * a + 960.0);
  }

  lemma {:induction false} MosRisesWithR(a: real, b: real)
    requires 0.0 <= a <= b <= 100.0
    ensures MosOfR(a) <= MosOfR(b)
  {
    if a <= 6.0 {
      BelowOne(a);
    } else {
      SlopeAbove(a, b);
      CubicDifference(a, b);
      Positive(b - a, 0.035 + 0.000007 * Slope(a, b));
    }
  }

  lemma {:induction false} LossImpairmentRises(l1: real, l2: real)
    requires 0.0 <= l1 <= l2
    ensures LossImpairment(l1) <= LossImpairment(l2)
  {
    LossShare(l1);
    LossShare(l2);
    Reciprocal(l1 + 25.1, l2 + 25.1);
  }

  lemma {:induction false} LossShare(l: real)
    requires l >= 0.0
    ensures LossImpairment(l) == 95.0 - 2384.5 * (1.0 / (l + 25.1))
  {
    var d := l + 25.1;
    assert 95.0 * l == 95.0 * d - 2384.5;
    assert 95.0 * l / d == (95.0 * d - 2384.5) / d;
    assert (95.0 * d - 2384.5) / d == 95.0 - 2384.5 / d;
  }

  lemma {:induction false} Reciprocal(x: real, y: real)
    requires 0.0 < x <= y
    ensures 1.0 / y <= 1.0 / x
  {
  }

  lemma {:induction false} DelayImpairmentRises(d1: real, d2: real)
    requires d1 <= d2
    ensures DelayImpairment(d1) <= DelayImpairment(d2)
  {
  }

  /** The score stays in [1, 4.5] and never rises when loss grows or delay grows. */
  lemma {:induction false} ScoreFalls(l1: real, l2: real, d1: real, d2: real)
    requires 0.0 <= l1 <= l2 && d1 <= d2
    ensures 1.0 <= Mos(l2, d2) <= Mos(l1, d1) <= 4.5
  {
    LossImpairmentRises(l1, l2);
    DelayImpairmentRises(d1, d2);
    MosRisesWithR(RFactor(l2, d2), RFactor(l1, d1));
  }

  /** More received of the same expected never lowers the score. */
  lemma {:induction false} ScoreOfCounts(expected: nat, r1: nat, r2: nat, delay: real)
    requires r1 <= r2
    ensures Mos(LossPercent(expected, r1), delay) <= Mos(LossPercent(expected, r2), delay)
  {
    if r2 < expected {
      var e := expected as real;
      Quotients((expected - r2) as real, (expected - r1) as real, e);
    }
    ScoreFalls(LossPercent(expected, r2), LossPercent(expected, r1), delay, delay);
  }

  // ---------- the scores in an XR block ----------

  /** What a session knows of the call besides its counters: the round trip and the
      jitter in milliseconds, and the jitter buffer's sizes. */
  datatype Call = Call(rttMs: Option<real>, jitterMs: real, jbNominal: u16, jbMaximum: u16)

  /** Half the round trip and the jitter. */
  function OneWayDelay(call: Call): real {
    (if call.rttMs.Some? then call.rttMs.value / 2.0 else 0.0) + call.jitterMs
  }

  /** Rounding half up, of a score. */
  function Rounded(x: real): int {
    (x + 0.5).Floor
  }

  lemma {:induction false} RoundedRises(x: real, y: real)
    requires x <= y
    ensures Rounded(x) <= Rounded(y)
  {
  }

  function LossRate(loss: real): (r: byte)
    requires 0.0 <= loss <= 100.0
  {
    Max(Min(Rounded(loss / 100.0 * 256.0), 255), 0)
  }

  function RScaled(r: real): byte
    requires 0.0 <= r <= 100.0
  {
    Rounded(r)
  }

  function MosScaled(mos: real): byte
    requires 1.0 <= mos <= 4.5
  {
    Rounded(mos * 10.0)
  }

  lemma {:induction false} MosInRange(loss: real, delay: real)
    requires loss >= 0.0
    ensures 1.0 <= Mos(loss, delay) <= 4.5
  {
    ScoreFalls(loss, loss, delay, delay);
  }

  /** The metrics that an XR block reports, from the packet counts and the call. */
  function CallMetrics(expected: nat, received: nat, call: Call, burstDensity: byte, gapDensity: byte): VoipMetrics {
    var loss, delay := LossPercent(expected, received), OneWayDelay(call);
    MosInRange(loss, delay);
    var mos := MosScaled(Mos(loss, delay));
    VoipMetrics(
      LossRate(loss), 0, burstDensity, gapDensity, 0, 0,
      if call.rttMs.Some? then Low16(call.rttMs.value.Floor) else 0, call.jbNominal,
      127, 127, 127, 16, RScaled(RFactor(loss, delay)), 127, mos, mos, 0,
      call.jbNominal, call.jbMaximum, if call.jbMaximum > 0 then call.jbMaximum else 1000)
  }

  lemma {:induction false} LossRateRises(l1: real, l2: real)
    requires 0.0 <= l1 <= l2 <= 100.0
    ensures LossRate(l1) <= LossRate(l2)
  {
    RoundedRises(l1 / 100.0 * 256.0, l2 / 100.0 * 256.0);
  }

  lemma {:induction false} LossPercentFalls(expected: nat, r1: nat, r2: nat)
    requires r1 <= r2
    ensures LossPercent(expected, r2) <= LossPercent(expected, r1)
  {
    if r2 < expected {
      Quotients((expected - r2) as real, (expected - r1) as real, expected as real);
    }
  }

  lemma {:induction false} RFactorFalls(l1: real, l2: real, delay: real)
    requires 0.0 <= l1 <= l2
    ensures RFactor(l2, delay) <= RFactor(l1, delay)
  {
    LossImpairmentRises(l1, l2);
  }

  /** What a peer reads in the block: a MOS between 10 and 45 tenths and an R-factor
      up to 100; and with more packets received of the same expected, the loss rate
      is no higher and neither score is lower. */
  lemma {:induction false} ReportedScores(
    expected: nat, r1: nat, r2: nat, call: Call, burstDensity: byte, gapDensity: byte)
    requires r1 <= r2
    ensures var m1 := CallMetrics(expected, r1, call, burstDensity, gapDensity);
      var m2 := CallMetrics(expected, r2, call, burstDensity, gapDensity);
      && 10 <= m1.mosLq <= m2.mosLq <= 45 && m1.rFactor <= m2.rFactor <= 100 && m2.lossRate <= m1.lossRate
      && (r2 >= expected ==> m2.lossRate == 0)
  {
    var delay, l1, l2 := OneWayDelay(call), LossPercent(expected, r1), LossPercent(expected, r2);
    hide LossPercent, RFactor, Mos;
    NoLoss(expected, r2);
    LossPercentFalls(expected, r1, r2);
    ScoreFalls(l2, l1, delay, delay);
    RFactorFalls(l2, l1, delay);
    LossRateRises(l2, l1);
    RoundedRises(Mos(l1, delay) * 10.0, Mos(l2, delay) * 10.0);
    RoundedRises(RFactor(l1, delay), RFactor(l2, delay));
  }

  lemma {:induction false} NoLoss(expected: nat, received: nat)
    ensures received >= expected ==> LossPercent(expected, received) == 0.0
  {
  }

  // ---------- the figures of the model ----------

  /** Delay costs nothing below 100 ms, 2.4 there, 0.024 for each further millisecond
      and 0.134 for each beyond 177.3. */
  lemma {:induction false} DelayCosts(d: real, e: real)
    requires d <= e
    ensures e < 100.0 ==> DelayImpairment(e) == 0.0
    ensures DelayImpairment(100.0) == 2.4
    ensures 100.0 <= d && e <= 177.3 ==> DelayImpairment(e) - DelayImpairment(d) == 0.024 * (e - d)
    ensures 177.3 <= d ==> DelayImpairment(e) - DelayImpairment(d) == 0.134 * (e - d)
  {
  }

  /** Loss costs up to 95, half of that at 25.1 percent. */
  lemma {:induction false} LossCosts(loss: real)
    requires loss >= 0.0
    ensures LossImpairment(loss) * (loss + 25.1) == 95.0 * loss
    ensures LossImpairment(25.1) == 47.5 && LossImpairment(0.0) == 0.0
  {
    assert 95.0 * loss / (loss + 25.1) * (loss + 25.1) == 95.0 * loss;
  }

  /** A perfect call has an R-factor of 93.2; what delay and loss cost is taken off, as
      far as zero. */
  lemma {:induction false} RFactorIs(loss: real, delay: real)
    requires loss >= 0.0 && delay >= 0.0
    ensures RFactor(0.0, 0.0) == 93.2
    ensures var r := 93.2 - DelayImpairment(delay) - LossImpairment(loss);
      RFactor(loss, delay) == if r < 0.0 then 0.0 else r
  {
    LossCosts(loss);
    LossCosts(0.0);
    LossImpairmentRises(0.0, loss);
  }

  /** The score is the standard's cubic of the R-factor, kept between 1 and 4.5. */
  lemma {:induction false} ScoreIsCubic(r: real)
    requires 0.0 <= r <= 100.0
    ensures Cubic(r) == 1.0 + 0.035 * r + 0.000007 * (160.0 * (r * r) - r * r * r - 6000.0 * r)
    ensures MosOfR(r) == if Cubic(r) < 1.0 then 1.0 else if Cubic(r) > 4.5 then 4.5 else Cubic(r)
  {
    hide Cubic;
    CubicExpanded(r);
    CubicDips();
  }

  /** Beyond the ends of the scale the score is its worst and its best. */
  lemma {:induction false} ScoreEnds(r: real)
    ensures r <= 0.0 ==> MosOfR(r) == 1.0
    ensures r > 100.0 ==> MosOfR(r) == 4.5
  {
  }

  /** The loss rate is the share lost, in 256ths, to the nearest, and 255 at most. */
  lemma {:induction false} LossRateIs(expected: nat, received: nat)
    requires expected > 0
    ensures var lost := if received < expected then (expected - received) as real else 0.0;
      var share := lost / expected as real * 256.0;
      var r := LossRate(LossPercent(expected, received));
      (share < 255.5 ==> r as real - 0.5 <= share < r as real + 0.5) && (share >= 255.5 ==> r == 255)
  {
    var lost := if received < expected then (expected - received) as real else 0.0;
    var share := lost / expected as real;
    assert LossPercent(expected, received) == share * 100.0;
    Percents(share);
    NearestByte(share * 256.0);
  }

  lemma {:induction false} Percents(share: real)
    ensures share * 100.0 / 100.0 * 256.0 == share * 256.0
  {
  }

  lemma {:induction false} NearestByte(x: real)
    requires x >= 0.0
    ensures var r := Max(Min(Rounded(x), 255), 0);
      (x < 255.5 ==> r as real - 0.5 <= x < r as real + 0.5) && (x >= 255.5 ==> r == 255)
  {
  }

  /** Delay one way is half the round trip and the jitter. */
  lemma {:induction false} OneWayDelayIs(call: Call)
    ensures call.rttMs.None? ==> OneWayDelay(call) == call.jitterMs
    ensures call.rttMs.Some? ==> 2.0 * (OneWayDelay(call) - call.jitterMs) == call.rttMs.value
  {
  }

  /** The other fields of a session's metrics: its densities, the round trip in whole
      milliseconds, the jitter buffer's sizes, and the marks for what is not known. */
  lemma {:induction false} MetricsFields(
    expected: nat, received: nat, call: Call, burstDensity: byte, gapDensity: byte)
    ensures var m := CallMetrics(expected, received, call, burstDensity, gapDensity);
      && m.burstDensity == burstDensity && m.gapDensity == gapDensity
      && (call.rttMs.None? ==> m.roundTripDelay == 0)
      && (call.rttMs.Some? && 0.0 <= call.rttMs.value < 65536.0 ==>
            m.roundTripDelay as real <= call.rttMs.value < m.roundTripDelay as real + 1.0)
      && m.jbNominal == m.endSystemDelay == call.jbNominal && m.jbMaximum == call.jbMaximum
      && m.jbAbsMax == (if call.jbMaximum == 0 then 1000 else call.jbMaximum)
      && m.discardRate == m.rxConfig == 0 && m.burstDuration == m.gapDuration == 0 && m.gmin == 16
      && m.signalLevel == m.noiseLevel == m.rerl == m.extRFactor == 127 && m.mosCq == m.mosLq
  {
    hide LossPercent, RFactor, Mos, LossRate, MosScaled, RScaled;
  }

  /** The scores are sent rounded, the MOS in tenths. */
  lemma {:induction false} ScoresAreRounded(
    expected: nat, received: nat, call: Call, burstDensity: byte, gapDensity: byte)
    ensures var m := CallMetrics(expected, received, call, burstDensity, gapDensity);
      var loss, delay := LossPercent(expected, received), OneWayDelay(call);
      && m.lossRate == LossRate(loss)
      && m.rFactor as real - 0.5 <= RFactor(loss, delay) < m.rFactor as real + 0.5
      && m.mosLq as real - 0.5 <= 10.0 * Mos(loss, delay) < m.mosLq as real + 0.5
  {
    hide LossPercent, RFactor, Mos, LossRate;
  }
}
