/**
 * The spectrum-sweep sampler of the VFO screen as values: the 160 RSSI
 * samples (one per display column), the buffer operations of
 * vfoSweepUpdateSamples (pan left and right, the two bandwidth rescales),
 * the sample-to-frequency map, and the bounded adjustments of the step,
 * noise-floor and gain settings made by setSweepIncDecSetting.
 *
 * The VFO screen applies these operations in place to its sample array;
 * the functions here are their specifications.
 */
module SweepSamples {
  import opened UiGlobals
  import opened SweepWord

  /** An RSSI sample, a uint8_t. */
  newtype Byte = x: int | 0 <= x < 256

  /** VFO_SWEEP_NUM_SAMPLES on the MD2017. */
  const N: nat := VFO_SWEEP_NUM_SAMPLES

  /** Samples the graph pans by, per sample-step index (SHIFT_DISTANCE). */
  const SHIFT_DISTANCE: seq<nat> := [6, 6, 6, 6, 8, 8, 8]

  /** First column the rescaled centre half starts at: N/2 - N/4. */
  const NEW_START_SAMPLE: nat := N / 2 - N / 4

  function Zeros(n: nat): (r: seq<Byte>)
    ensures |r| == n && forall i :: 0 <= i < n ==> r[i] == 0
  {
    seq(n, _ => 0 as Byte)
  }

  /** A buffer of exactly the sweep's sample count. */
  predicate IsBuffer(s: seq<Byte>)
  {
    |s| == N
  }

  // ---------------------------------------------------------------------
  // Pan

  /**
   * A positive offset: memcpy(&s[0], &s[k], N - k), memset(&s[N - k], 0, k).
   * Every column shows the sample k columns to its right, and the k columns
   * revealed on the right are empty.
   */
  function ShiftedLeft(s: seq<Byte>, k: nat): (r: seq<Byte>)
    requires k <= |s|
    ensures |r| == |s|
    ensures forall i :: 0 <= i < |s| - k ==> r[i] == s[i + k]
    ensures forall i :: |s| - k <= i < |s| ==> r[i] == 0
  {
    s[k..] + Zeros(k)
  }

  /**
   * A negative offset: memmove(&s[k], &s[0], N - k), memset(&s[0], 0, k).
   * Every column shows the sample k columns to its left, and the k columns
   * revealed on the left are empty.
   */
  function ShiftedRight(s: seq<Byte>, k: nat): (r: seq<Byte>)
    requires k <= |s|
    ensures |r| == |s|
    ensures forall i :: k <= i < |s| ==> r[i] == s[i - k]
    ensures forall i :: 0 <= i < k ==> r[i] == 0
  {
    Zeros(k) + s[..|s| - k]
  }

  /**
   * Panning up and back down again restores every sample that stayed on
   * the screen, and leaves the columns that were pushed off empty.
   */
  lemma PanUpThenDown(s: seq<Byte>, k: nat)
    requires k <= |s|
    ensures ShiftedRight(ShiftedLeft(s, k), k) == Zeros(k) + s[k..]
  {
    var r := ShiftedRight(ShiftedLeft(s, k), k);
    var e := Zeros(k) + s[k..];
    assert |r| == |e|;
    forall i | 0 <= i < |r|
      ensures r[i] == e[i]
    {
      if i >= k {
        assert r[i] == ShiftedLeft(s, k)[i - k];
      }
    }
  }

  /** Panning down and back up again restores every sample that stayed on the screen. */
  lemma PanDownThenUp(s: seq<Byte>, k: nat)
    requires k <= |s|
    ensures ShiftedLeft(ShiftedRight(s, k), k) == s[..|s| - k] + Zeros(k)
  {
    var r := ShiftedLeft(ShiftedRight(s, k), k);
    var e := s[..|s| - k] + Zeros(k);
    assert |r| == |e|;
    forall i | 0 <= i < |r|
      ensures r[i] == e[i]
    {
      if i < |s| - k {
        assert r[i] == ShiftedRight(s, k)[i + k];
      }
    }
  }

  /** The sample index a pan leaves: N - 1 - k after panning up, 0 after panning down. */
  function IndexAfterPan(k: int): (r: int)
    requires -8 <= k <= 8 && k != 0
    ensures 0 <= r < N
    ensures k > 0 ==> r + k == N - 1
  {
    if k > 0 then N - 1 - k else 0
  }

  // ---------------------------------------------------------------------
  // Bandwidth rescale

  /** The C average of two uint8_t samples: their sum divided by two. */
  function Average(a: Byte, b: Byte): (r: Byte)
    ensures (a <= b ==> a <= r <= b) && (b <= a ==> b <= r <= a)
    ensures a == b ==> r == a
  {
    ((a as int + b as int) / 2) as Byte
  }

  /**
   * A positive rescale (a wider sample step): each pair of samples is
   * averaged into one, and the halved graph sits in the centre half,
   * columns 40 to 119; the quarters either side are cleared.
   */
  function Compressed(s: seq<Byte>): (r: seq<Byte>)
    requires IsBuffer(s)
    ensures IsBuffer(r)
    ensures forall j :: 0 <= j < NEW_START_SAMPLE ==> r[j] == 0
    ensures forall j :: NEW_START_SAMPLE + N / 2 <= j < N ==> r[j] == 0
    ensures forall m :: 0 <= m < N / 2 ==> r[NEW_START_SAMPLE + m] == Average(s[2 * m], s[2 * m + 1])
  {
    seq(N, j requires 0 <= j < N =>
      if NEW_START_SAMPLE <= j < NEW_START_SAMPLE + N / 2
      then Average(s[2 * (j - NEW_START_SAMPLE)], s[2 * (j - NEW_START_SAMPLE) + 1])
      else 0)
  }

  /**
   * A negative rescale (a narrower sample step): the centre half is spread
   * over the whole graph by two-point interpolation, every centre sample
   * pair giving two equal columns, and the last column repeats the one
   * before it.
   */
  function Expanded(s: seq<Byte>): (r: seq<Byte>)
    requires IsBuffer(s)
    ensures IsBuffer(r)
    ensures forall i :: 0 <= i < N - 1 ==>
      r[i] == Average(s[NEW_START_SAMPLE + i / 2], s[NEW_START_SAMPLE + i / 2 + 1])
    ensures r[N - 1] == r[N - 2]
  {
    var body := seq(N - 1, i requires 0 <= i < N - 1 =>
      Average(s[NEW_START_SAMPLE + i / 2], s[NEW_START_SAMPLE + i / 2 + 1]));
    body + [body[N - 2]]
  }

  /** Every sample of a buffer is at most m. */
  predicate AllAtMost(s: seq<Byte>, m: Byte)
  {
    forall i :: 0 <= i < |s| ==> s[i] <= m
  }

  /** Neither rescale can raise the graph above its highest sample. */
  lemma RescaleKeepsPeak(s: seq<Byte>, m: Byte)
    requires IsBuffer(s) && AllAtMost(s, m)
    ensures AllAtMost(Compressed(s), m)
    ensures AllAtMost(Expanded(s), m)
  {
  }

  /** A flat trace stays flat through a rescale: the centre after compressing, all of it after expanding. */
  lemma RescaleKeepsFlatTrace(s: seq<Byte>, v: Byte)
    requires IsBuffer(s) && forall i :: 0 <= i < N ==> s[i] == v
    ensures forall j :: NEW_START_SAMPLE <= j < NEW_START_SAMPLE + N / 2 ==> Compressed(s)[j] == v
    ensures Expanded(s) == s
  {
    var c := Compressed(s);
    forall j | NEW_START_SAMPLE <= j < NEW_START_SAMPLE + N / 2
      ensures c[j] == v
    {
      var m := j - NEW_START_SAMPLE;
      assert c[NEW_START_SAMPLE + m] == Average(s[2 * m], s[2 * m + 1]);
    }
    var e := Expanded(s);
    forall i | 0 <= i < N
      ensures e[i] == s[i]
    {
      if i < N - 1 {
        assert e[i] == Average(s[NEW_START_SAMPLE + i / 2], s[NEW_START_SAMPLE + i / 2 + 1]);
      }
    }
  }

  /** Both columns of a pair of an expanded graph interpolate between the same two centre samples. */
  lemma ExpandedPair(c: seq<Byte>, m: nat)
    requires IsBuffer(c) && m < N / 2 - 1
    ensures Expanded(c)[2 * m] == Average(c[NEW_START_SAMPLE + m], c[NEW_START_SAMPLE + m + 1])
    ensures Expanded(c)[2 * m + 1] == Average(c[NEW_START_SAMPLE + m], c[NEW_START_SAMPLE + m + 1])
  {
    assert (2 * m) / 2 == m && (2 * m + 1) / 2 == m;
  }

  /**
   * Zooming out and back in gives, in both columns of each pair but the
   * last, the average of two neighbouring pair averages of the original
   * samples.
   */
  lemma CompressThenExpandAverages(s: seq<Byte>, m: nat)
    requires IsBuffer(s) && m < N / 2 - 1
    ensures var e, avg := Expanded(Compressed(s)), Average(Average(s[2 * m], s[2 * m + 1]), Average(s[2 * m + 2], s[2 * m + 3]));
      e[2 * m] == avg && e[2 * m + 1] == avg
  {
    var c := Compressed(s);
    ExpandedPair(c, m);
    assert c[NEW_START_SAMPLE + m] == Average(s[2 * m], s[2 * m + 1]);
    assert c[NEW_START_SAMPLE + (m + 1)] == Average(s[2 * (m + 1)], s[2 * (m + 1) + 1]);
  }

  // ---------------------------------------------------------------------
  // Sample column to frequency

  /**
   * C integer division, which truncates toward zero (Dafny's / is
   * Euclidean): the remainder is smaller than the divisor and has the sign
   * of the dividend.
   */
  function TruncDiv(a: int, b: int): (q: int)
    requires b > 0
    ensures -b < a - q * b < b
    ensures (a - q * b) * a >= 0
  {
    if a >= 0 then a / b
    else
      var q := -((-a) / b);
      assert a - q * b == -((-a) % b);
      q
  }

  /**
   * The frequency the receiver is tuned to for sample column idx:
   * rx + (rangeStep * (idx - N/2)) / VFO_SWEEP_PIXELS_PER_STEP, with C
   * division. rangeStep is VFO_SWEEP_SCAN_RANGE_SAMPLE_STEP_TABLE[index].
   */
  function SweepFrequency(rx: int, rangeStep: int, idx: int): (f: int)
  {
    rx + TruncDiv(rangeStep * (idx - N / 2), VFO_SWEEP_PIXELS_PER_STEP)
  }

  /**
   * The centre column is the VFO's own frequency; columns the same
   * distance either side of the centre lie the same distance below and
   * above it (because C division truncates toward zero); and columns
   * further right are never lower in frequency.
   */
  lemma SweepFrequencyShape(rx: int, rangeStep: int, d: int, i: int, j: int)
    requires rangeStep >= 0 && i <= j
    ensures SweepFrequency(rx, rangeStep, N / 2) == rx
    ensures SweepFrequency(rx, rangeStep, N / 2 + d) - rx == rx - SweepFrequency(rx, rangeStep, N / 2 - d)
    ensures SweepFrequency(rx, rangeStep, i) <= SweepFrequency(rx, rangeStep, j)
  {
    var a, b := rangeStep * d, rangeStep * (-d);
    assert b == -a;
    var p, q := rangeStep * (i - N / 2), rangeStep * (j - N / 2);
    assert q - p == rangeStep * (j - i);
    assert p <= q;
    TruncDivMonotone(p, q);
  }

  lemma TruncDivMonotone(p: int, q: int)
    requires p <= q
    ensures TruncDiv(p, VFO_SWEEP_PIXELS_PER_STEP) <= TruncDiv(q, VFO_SWEEP_PIXELS_PER_STEP)
  {
  }

  // ---------------------------------------------------------------------
  // The sweep settings

  /** The last usable sample-step index: the table length minus one. */
  const MAX_STEP_INDEX: int := SWEEP_STEP_TABLE_LENGTH - 1

  /**
   * The three runtime sweep settings: sweepStepSizeIndex,
   * vfoSweepRssiNoiseFloor and vfoSweepGain.
   */
  datatype SweepSettings = SweepSettings(stepIndex: int, noiseFloor: int, gain: int)

  /**
   * The ranges the settings are kept in: a step index that selects a table
   * entry, a noise floor within its limits and a non-zero gain up to the
   * maximum (the graph divides by the gain).
   */
  predicate InRanges(s: SweepSettings)
  {
    0 <= s.stepIndex <= MAX_STEP_INDEX &&
    VFO_SWEEP_RSSI_NOISE_FLOOR_MIN <= s.noiseFloor <= VFO_SWEEP_RSSI_NOISE_FLOOR_MAX &&
    VFO_SWEEP_GAIN_MIN < s.gain <= VFO_SWEEP_GAIN_MAX
  }

  /** The settings sweepScanInit unpacks from the stored word. */
  function Unpacked(w: int): (s: SweepSettings)
    requires IsWord(w)
    ensures 0 <= s.stepIndex < 8 && 0 <= s.noiseFloor < 32 && 0 <= s.gain < 128
  {
    SweepSettings(StepIndexOf(w), NoiseFloorOf(w), GainOf(w))
  }

  /** A stored word whose fields are all in their ranges. */
  predicate WordInRanges(w: int)
  {
    IsWord(w) && InRanges(Unpacked(w))
  }

  lemma DefaultWordInRanges()
    ensures WordInRanges(DefaultWord())
    ensures Unpacked(DefaultWord()) == SweepSettings(MAX_STEP_INDEX, VFO_SWEEP_RSSI_NOISE_FLOOR_DEFAULT, VFO_SWEEP_GAIN_DEFAULT)
  {
  }

  /** SWEEP_SETTING_STEP, SWEEP_SETTING_RSSI and SWEEP_SETTING_GAIN. */
  datatype SweepSetting = SettingStep | SettingRssi | SettingGain

  /**
   * What setSweepIncDecSetting decides: the new runtime settings, whether
   * anything changed (apply), the new word for vfoSweepSettings, and the
   * bandwidth-rescale direction passed on to the sample buffer.
   */
  datatype SweepAdjust = SweepAdjust(settings: SweepSettings, apply: bool, word: int, rescale: int)

  /** The step index, one up or one down, clamped to the table. */
  function StepIndexAdjusted(idx: int, increment: bool): (r: int)
    requires 0 <= idx < 8
    ensures 0 <= r <= MAX_STEP_INDEX
    ensures idx <= MAX_STEP_INDEX ==> (r == idx <==> (increment && idx == MAX_STEP_INDEX) || (!increment && idx == 0))
    ensures idx <= MAX_STEP_INDEX && r != idx ==> r == (if increment then idx + 1 else idx - 1)
  {
    if increment then (if idx + 1 < MAX_STEP_INDEX then idx + 1 else MAX_STEP_INDEX)
    else (if idx - 1 > 0 then idx - 1 else 0)
  }

  /**
   * The decision of setSweepIncDecSetting, with the gain step guarded so
   * that the gain never exceeds VFO_SWEEP_GAIN_MAX (see GainAdjustedAsWritten).
   * "Increment" on the noise floor lowers it, "increment" on the gain
   * lowers the divisor and so magnifies the graph.
   */
  function Adjusted(kind: SweepSetting, increment: bool, s: SweepSettings, w: int): (r: SweepAdjust)
    requires IsWord(w) && 0 <= s.stepIndex < 8 && 0 <= s.noiseFloor < 32 && 0 <= s.gain < 128
    ensures IsWord(r.word)
    ensures InRanges(s) ==> InRanges(r.settings)
    ensures !r.apply ==> r.settings == s && r.word == w && r.rescale == 0
    ensures r.apply ==> Unpacked(r.word) == r.settings.(stepIndex := if kind == SettingStep then r.settings.stepIndex else StepIndexOf(w),
                                                          noiseFloor := if kind == SettingRssi then r.settings.noiseFloor else NoiseFloorOf(w),
                                                          gain := if kind == SettingGain then r.settings.gain else GainOf(w))
    ensures r.rescale != 0 ==> kind == SettingStep && r.apply && r.rescale == (if increment then 1 else -1)
  {
    match kind
    case SettingStep =>
      var idx := StepIndexAdjusted(s.stepIndex, increment);
      if idx != s.stepIndex then
        SweepAdjust(s.(stepIndex := idx), true, WithStepIndex(w, idx), if increment then 1 else -1)
      else SweepAdjust(s, false, w, 0)
    case SettingRssi =>
      if increment && s.noiseFloor > VFO_SWEEP_RSSI_NOISE_FLOOR_MIN then
        SweepAdjust(s.(noiseFloor := s.noiseFloor - 1), true, WithNoiseFloor(w, s.noiseFloor - 1), 0)
      else if !increment && s.noiseFloor < VFO_SWEEP_RSSI_NOISE_FLOOR_MAX then
        SweepAdjust(s.(noiseFloor := s.noiseFloor + 1), true, WithNoiseFloor(w, s.noiseFloor + 1), 0)
      else SweepAdjust(s, false, w, 0)
    case SettingGain =>
      if increment && s.gain > VFO_SWEEP_GAIN_STEP then
        SweepAdjust(s.(gain := s.gain - VFO_SWEEP_GAIN_STEP), true, WithGain(w, s.gain - VFO_SWEEP_GAIN_STEP), 0)
      else if !increment && s.gain + VFO_SWEEP_GAIN_STEP <= VFO_SWEEP_GAIN_MAX then
        SweepAdjust(s.(gain := s.gain + VFO_SWEEP_GAIN_STEP), true, WithGain(w, s.gain + VFO_SWEEP_GAIN_STEP), 0)
      else SweepAdjust(s, false, w, 0)
  }

  /**
   * Settings and word that agree and are in range stay so through every
   * adjustment: the sweep never indexes past its tables, never divides by
   * a zero gain and never shows a gain above the maximum.
   */
  lemma AdjustKeepsWordInRanges(kind: SweepSetting, increment: bool, w: int)
    requires WordInRanges(w) && TopBitOf(w) == 0
    ensures var r := Adjusted(kind, increment, Unpacked(w), w);
      WordInRanges(r.word) && Unpacked(r.word) == r.settings && TopBitOf(r.word) == 0
  {
    var r := Adjusted(kind, increment, Unpacked(w), w);
    if r.apply {
      assert Unpacked(r.word) == r.settings;
      assert TopBitOf(r.word) == 0 by {
        if kind == SettingStep {
        } else {
          assert TopBitOf(r.word) == TopBitOf(w);
        }
      }
    }
  }

  /**
   * The gain branch of setSweepIncDecSetting as the source writes it: the
   * "decrement" key raises the gain by VFO_SWEEP_GAIN_STEP whenever it is
   * below VFO_SWEEP_GAIN_MAX.
   */
  function GainAdjustedAsWritten(increment: bool, gain: int): (r: (int, bool))
    ensures r.1 ==> (if increment then r.0 == gain - VFO_SWEEP_GAIN_STEP else r.0 == gain + VFO_SWEEP_GAIN_STEP)
    ensures !r.1 ==> r.0 == gain
  {
    if increment && gain > VFO_SWEEP_GAIN_STEP then (gain - VFO_SWEEP_GAIN_STEP, true)
    else if !increment && gain < VFO_SWEEP_GAIN_MAX then (gain + VFO_SWEEP_GAIN_STEP, true)
    else (gain, false)
  }

  /**
   * As written, six "decrement" presses from the default gain 86 reach
   * 116, and one more gives 121, above VFO_SWEEP_GAIN_MAX; the guarded
   * adjustment stops at 116.
   */
  lemma GainOvershootsAsWritten()
    ensures GainAdjustedAsWritten(false, 116) == (121, true)
    ensures 121 > VFO_SWEEP_GAIN_MAX
    ensures VFO_SWEEP_GAIN_DEFAULT + 6 * VFO_SWEEP_GAIN_STEP == 116
    ensures Adjusted(SettingGain, false, SweepSettings(6, 14, 116), Pack(6, 14, 116)).settings.gain == 116
  {
  }
}
