/**
 * The packed sweep-scan setting word (nonVolatileSettings.vfoSweepSettings,
 * a uint16): bits 12..14 hold the sample-step index, bits 7..11 the RSSI
 * noise floor and bits 0..6 the gain.
 *
 * The word is a non-negative int below 2^16, and the source's bit
 * operations are written arithmetically: x >> k is x / 2^k, x & (2^k - 1)
 * is x % 2^k, and an OR of fields whose bits do not overlap is a sum.
 */
module SweepWord {
  import opened UiGlobals

  /**
   * Entries of VFO_SWEEP_SCAN_RANGE_SAMPLE_STEP_TABLE. Its values are not
   * part of this model, but vfoSweepUpdateSamples indexes the 7-entry
   * SHIFT_DISTANCE table with the same index, so it has 7 entries.
   */
  const SWEEP_STEP_TABLE_LENGTH: nat := 7

  predicate IsWord(w: int)
  {
    0 <= w < 0x1_0000
  }

  /** (w >> 12) & 0x7 */
  function StepIndexOf(w: int): (r: int)
    requires IsWord(w)
    ensures 0 <= r < 8
  {
    (w / 0x1000) % 8
  }

  /** (w >> 7) & 0x1F */
  function NoiseFloorOf(w: int): (r: int)
    requires IsWord(w)
    ensures 0 <= r < 32
  {
    (w / 0x80) % 32
  }

  /** w & 0x7F */
  function GainOf(w: int): (r: int)
    requires IsWord(w)
    ensures 0 <= r < 128
  {
    w % 0x80
  }

  /** Bit 15, which no field uses. */
  function TopBitOf(w: int): int
    requires IsWord(w)
  {
    w / 0x8000
  }

  /** (step << 12) | (floor << 7) | gain */
  function Pack(step: int, floor: int, gain: int): (w: int)
    requires 0 <= step < 8 && 0 <= floor < 32 && 0 <= gain < 128
    ensures IsWord(w) && TopBitOf(w) == 0
    ensures StepIndexOf(w) == step && NoiseFloorOf(w) == floor && GainOf(w) == gain
  {
    step * 0x1000 + floor * 0x80 + gain
  }

  /** setting = (index << 12) | (vfoSweepSettings & 0xFFF) */
  function WithStepIndex(w: int, step: int): (r: int)
    requires IsWord(w) && 0 <= step < 8
    ensures IsWord(r) && TopBitOf(r) == 0
    ensures StepIndexOf(r) == step
    ensures NoiseFloorOf(r) == NoiseFloorOf(w) && GainOf(r) == GainOf(w)
  {
    step * 0x1000 + w % 0x1000
  }

  /** setting &= 0xF07F; setting |= floor << 7 */
  function WithNoiseFloor(w: int, floor: int): (r: int)
    requires IsWord(w) && 0 <= floor < 32
    ensures IsWord(r) && TopBitOf(r) == TopBitOf(w)
    ensures NoiseFloorOf(r) == floor
    ensures StepIndexOf(r) == StepIndexOf(w) && GainOf(r) == GainOf(w)
  {
    (w / 0x1000) * 0x1000 + floor * 0x80 + w % 0x80
  }

  /** setting &= 0xFF80; setting |= gain, for a gain that fits its 7 bits */
  function WithGain(w: int, gain: int): (r: int)
    requires IsWord(w) && 0 <= gain < 128
    ensures IsWord(r) && TopBitOf(r) == TopBitOf(w)
    ensures GainOf(r) == gain
    ensures StepIndexOf(r) == StepIndexOf(w) && NoiseFloorOf(r) == NoiseFloorOf(w)
  {
    (w / 0x80) * 0x80 + gain
  }

  /** A word whose top bit is clear is rebuilt exactly from its three fields. */
  lemma PackRoundTrip(w: int)
    requires IsWord(w) && TopBitOf(w) == 0
    ensures Pack(StepIndexOf(w), NoiseFloorOf(w), GainOf(w)) == w
  {
    var hi, lo := w / 0x1000, w % 0x1000;
    assert w == hi * 0x1000 + lo;
    assert StepIndexOf(w) == hi;
    var mid, g := lo / 0x80, lo % 0x80;
    assert lo == mid * 0x80 + g;
    assert w / 0x80 == hi * 32 + mid;
    assert NoiseFloorOf(w) == mid;
    assert GainOf(w) == g;
  }

  /** The default word: last sample-step index, default noise floor, default gain. */
  function DefaultWord(): (w: int)
    ensures IsWord(w)
    ensures StepIndexOf(w) == SWEEP_STEP_TABLE_LENGTH - 1
    ensures NoiseFloorOf(w) == VFO_SWEEP_RSSI_NOISE_FLOOR_DEFAULT
    ensures GainOf(w) == VFO_SWEEP_GAIN_DEFAULT
  {
    Pack(SWEEP_STEP_TABLE_LENGTH - 1, VFO_SWEEP_RSSI_NOISE_FLOOR_DEFAULT, VFO_SWEEP_GAIN_DEFAULT)
  }
}
