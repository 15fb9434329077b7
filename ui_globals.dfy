/**
 * Scan-related constants and enumerations of the VFO screen, for the
 * MD2017 build (STM32 CPU, so the MK22-only extra DMR dwell is zero).
 * Time constants are in scan-timer ticks of one millisecond.
 */
module UiGlobals {

  const MAX_ZONE_SCAN_NUISANCE_CHANNELS: nat := 32

  const TIMESLOT_DURATION: int := 30
  const SCAN_SHORT_PAUSE_TIME: int := 500
  const SCAN_DMR_DUPLEX_SLOW_MIN_DWELL_TIME: int := TIMESLOT_DURATION * 6
  const SCAN_DMR_SIMPLEX_SLOW_MIN_DWELL_TIME: int := TIMESLOT_DURATION * 10
  const SCAN_DMR_DUPLEX_FAST_MIN_DWELL_TIME: int := TIMESLOT_DURATION
  /** Only the MK22 CPU adds 8 ms; the MD2017 is an STM32 radio. */
  const SCAN_DMR_DUPLEX_FAST_EXTRA_DWELL_TIME: int := 0
  const SCAN_DMR_SIMPLEX_FAST_MIN_DWELL_TIME: int := (TIMESLOT_DURATION * 2) + SCAN_DMR_DUPLEX_FAST_EXTRA_DWELL_TIME
  const SCAN_FREQ_CHANGE_SETTLING_INTERVAL: int := 1
  const SCAN_SKIP_CHANNEL_INTERVAL: int := 1

  /** Number of RSSI samples (display columns) of the sweep graph on the MD2017. */
  const VFO_SWEEP_NUM_SAMPLES: nat := 160
  const VFO_SWEEP_PIXELS_PER_STEP: int := 4
  const VFO_SWEEP_GAIN_STEP: int := 5
  const VFO_SWEEP_GAIN_MIN: int := 0
  const VFO_SWEEP_GAIN_MAX: int := 120
  const VFO_SWEEP_GAIN_DEFAULT: int := 86
  const VFO_SWEEP_RSSI_NOISE_FLOOR_MIN: int := 4
  const VFO_SWEEP_RSSI_NOISE_FLOOR_MAX: int := 24
  const VFO_SWEEP_RSSI_NOISE_FLOOR_DEFAULT: int := 14

  /** Frequencies are in units of 10 Hz: this is 430 MHz. */
  const OUT_OF_BAND_FALLBACK_FREQUENCY: int := 43000000

  /** ScanState_t: SCANNING = 0, SHORT_PAUSED = 1, PAUSED = 2. */
  datatype ScanState = Scanning | ShortPaused | Paused

  /** ScanType_t: NORMAL_STEP = 0, DUAL_WATCH = 1. */
  datatype ScanType = NormalStep | DualWatch

  /** The C enumeration value of a scan state. */
  function ScanStateValue(s: ScanState): (r: int)
    ensures 0 <= r <= 2
    ensures r == 0 <==> s == Scanning
    ensures r == 2 <==> s == Paused
  {
    match s
    case Scanning => 0
    case ShortPaused => 1
    case Paused => 2
  }

  /** Decoding of the enumeration value; the inverse of ScanStateValue. */
  function ScanStateOfValue(v: int): (s: ScanState)
    requires 0 <= v <= 2
    ensures ScanStateValue(s) == v
  {
    if v == 0 then Scanning else if v == 1 then ShortPaused else Paused
  }

  lemma ScanStateValueRoundTrip(s: ScanState)
    ensures ScanStateOfValue(ScanStateValue(s)) == s
  {
  }

  /**
   * The DMR dwell floors are ordered as the timing of the two slots needs:
   * a simplex (DMO) floor is never below the duplex one, a slow floor never
   * below the fast one, and all are whole numbers of timeslots.
   */
  lemma DwellFloorsOrdered()
    ensures SCAN_DMR_SIMPLEX_SLOW_MIN_DWELL_TIME >= SCAN_DMR_DUPLEX_SLOW_MIN_DWELL_TIME
    ensures SCAN_DMR_SIMPLEX_FAST_MIN_DWELL_TIME >= SCAN_DMR_DUPLEX_FAST_MIN_DWELL_TIME
    ensures SCAN_DMR_DUPLEX_SLOW_MIN_DWELL_TIME >= SCAN_DMR_DUPLEX_FAST_MIN_DWELL_TIME
    ensures SCAN_DMR_SIMPLEX_SLOW_MIN_DWELL_TIME >= SCAN_DMR_SIMPLEX_FAST_MIN_DWELL_TIME
    ensures SCAN_DMR_SIMPLEX_FAST_MIN_DWELL_TIME % TIMESLOT_DURATION == 0
    ensures SCAN_DMR_DUPLEX_SLOW_MIN_DWELL_TIME % TIMESLOT_DURATION == 0
  {
  }

  /** The sweep defaults lie within their ranges and fit the packed setting word. */
  lemma SweepDefaultsInRange()
    ensures VFO_SWEEP_GAIN_MIN <= VFO_SWEEP_GAIN_DEFAULT <= VFO_SWEEP_GAIN_MAX < 128
    ensures VFO_SWEEP_RSSI_NOISE_FLOOR_MIN <= VFO_SWEEP_RSSI_NOISE_FLOOR_DEFAULT <= VFO_SWEEP_RSSI_NOISE_FLOOR_MAX < 32
    ensures VFO_SWEEP_NUM_SAMPLES % 4 == 0
  {
  }
}
