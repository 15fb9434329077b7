/**
 * The decisions of the VFO scan and stepping engine (uiVFOMode.c) as pure
 * functions: DMR dwell times, the carrier and audio phases of a scan tick,
 * the nuisance list search and ring, the default scan window, scan-limit
 * entry, band-aware stepping, direct frequency entry, where the next scan
 * step goes, which keys the scan reacts to, and the TG-list contact choice.
 * The VFO screen class applies them to its state.
 */
module ScanLogic {
  import opened Wrappers
  import opened UiGlobals
  import opened Bands
  import opened Radio
  import opened Codeplug
  import opened Settings

  /** vfoScreenOperationMode_t, one per VFO. */
  datatype ScreenMode = ScreenNormal | ScreenScan | ScreenDualScan | ScreenSweep

  // ---------------------------------------------------------------------
  // Dwell time

  /** The DMR minimum dwell: slow above 150 ms step time, and longer for simplex (DMO). */
  function DwellFloor(stepTimeMs: int, dmrModeRx: DmrMode): (r: int)
    ensures stepTimeMs > 150 ==> r >= SCAN_DMR_DUPLEX_SLOW_MIN_DWELL_TIME
    ensures r >= SCAN_DMR_DUPLEX_FAST_MIN_DWELL_TIME
  {
    if stepTimeMs > 150 then
      (if dmrModeRx == DmrDmo then SCAN_DMR_SIMPLEX_SLOW_MIN_DWELL_TIME else SCAN_DMR_DUPLEX_SLOW_MIN_DWELL_TIME)
    else
      (if dmrModeRx == DmrDmo then SCAN_DMR_SIMPLEX_FAST_MIN_DWELL_TIME else SCAN_DMR_DUPLEX_FAST_MIN_DWELL_TIME)
  }

  /**
   * The dwell time of scanInit and of the dual-watch VFO switch: the step
   * time in analog mode, and in digital mode the larger of the step time
   * and the DMR floor, so the HR-C6000 has time to start its timeslot
   * interrupt.
   */
  function ScanDwell(mode: RadioMode, stepTimeMs: int, dmrModeRx: DmrMode): (r: int)
    ensures mode == Analog ==> r == stepTimeMs
    ensures mode == Digital ==> r >= stepTimeMs && r >= DwellFloor(stepTimeMs, dmrModeRx)
    ensures mode == Digital ==> r == stepTimeMs || r == DwellFloor(stepTimeMs, dmrModeRx)
  {
    if mode == Digital then
      var floor := DwellFloor(stepTimeMs, dmrModeRx);
      if stepTimeMs < floor then floor else stepTimeMs
    else stepTimeMs
  }

  /**
   * A simplex (DMO) scan never dwells less than a duplex one at the same
   * step time, and a digital scan never less than an analog one.
   */
  lemma DwellOrdering(stepTimeMs: int, other: DmrMode)
    ensures ScanDwell(Digital, stepTimeMs, DmrDmo) >= ScanDwell(Digital, stepTimeMs, other)
    ensures ScanDwell(Digital, stepTimeMs, other) >= ScanDwell(Analog, stepTimeMs, other)
  {
  }

  // ---------------------------------------------------------------------
  // One scan tick: carrier and audio phases

  /** What the radio reports during a scan tick. */
  datatype RfInputs = RfInputs(
    mode: RadioMode,       // trxGetMode()
    dmrModeRx: DmrMode,    // currentRadioDevice->trxDMRModeRx
    slotActive: bool,      // slotState != DMR_STATE_IDLE
    capturedTs: int,       // dmrMonitorCapturedTS, -1 when none
    currentTs: int,        // trxGetDMRTimeSlot()
    hasSync: bool,         // HRC6000HasGotSync()
    carrier: bool,         // trxCarrierDetected(RADIO_DEVICE_PRIMARY)
    audioActive: bool,     // getAudioAmpStatus() & AUDIO_AMP_MODE_RF
    rxOn: bool)            // rxPowerSavingIsRxOn()

  /** The scan state and countdown after a phase, or the end of the scan. */
  datatype Phase = Phase(state: ScanState, timeout: int) | StopScan

  /** (1 superframe + 1 timeslot) * 4: time for DMR sync and incoming audio. */
  const DMR_SLOW_PAUSE_TIME: int := ((TIMESLOT_DURATION * 12) + TIMESLOT_DURATION) * 4

  /** The carrier is sampled only while scanning, after settling and before the skip tick. */
  predicate InCarrierWindow(state: ScanState, timeout: int, dwell: int)
  {
    state == Scanning && timeout > SCAN_SKIP_CHANNEL_INTERVAL && timeout < dwell - SCAN_FREQ_CHANGE_SETTLING_INTERVAL
  }

  /**
   * DMR slow-mode detection: a captured timeslot that matches the filter
   * (the current slot in DMO, any in RMO) with the timeslot filter on, or
   * DMR sync.
   */
  predicate DmrSlowHit(tsFilter: bool, rf: RfInputs)
  {
    (tsFilter && rf.slotActive && rf.capturedTs != -1 &&
     ((rf.dmrModeRx == DmrDmo && rf.capturedTs == rf.currentTs) || rf.dmrModeRx == DmrRmo)) ||
    rf.hasSync
  }

  /**
   * The carrier phase of scanning(): a hit while in the window moves to
   * SHORT_PAUSED with the time needed to confirm the signal, except that
   * an analog carrier under the STOP pause mode ends the scan.
   */
  function CarrierPhase(state: ScanState, timeout: int, dwell: int, stepTimeMs: int, tsFilter: bool,
                        pause: ScanModePause, rf: RfInputs): (r: Phase)
    ensures !InCarrierWindow(state, timeout, dwell) ==> r == Phase(state, timeout)
    ensures r.StopScan? ==> rf.mode != Digital
    ensures r.StopScan? ==> rf.carrier
    ensures r.StopScan? ==> pause == ScanModeStop
    ensures r.Phase? && r != Phase(state, timeout) ==> r.state == ShortPaused && InCarrierWindow(state, timeout, dwell)
    ensures r.Phase? && r.state == ShortPaused && state == Scanning ==>
      r.timeout == DMR_SLOW_PAUSE_TIME || r.timeout == SCAN_SHORT_PAUSE_TIME || r.timeout == 2 * SCAN_SHORT_PAUSE_TIME
    ensures InCarrierWindow(state, timeout, dwell) && rf.mode == Analog ==> (r == Phase(state, timeout) <==> !rf.carrier)
    ensures InCarrierWindow(state, timeout, dwell) && rf.mode == Digital && stepTimeMs > 150 ==>
      (r == Phase(state, timeout) <==> !DmrSlowHit(tsFilter, rf))
  {
    if !InCarrierWindow(state, timeout, dwell) then Phase(state, timeout)
    else if rf.mode == Digital then
      if stepTimeMs > 150 then
        if DmrSlowHit(tsFilter, rf) then Phase(ShortPaused, DMR_SLOW_PAUSE_TIME) else Phase(state, timeout)
      else if rf.carrier then
        Phase(ShortPaused, if tsFilter then SCAN_SHORT_PAUSE_TIME else SCAN_SHORT_PAUSE_TIME * 2)
      else Phase(state, timeout)
    else if rf.carrier then
      if pause == ScanModeStop then StopScan else Phase(ShortPaused, SCAN_SHORT_PAUSE_TIME)
    else Phase(state, timeout)
  }

  /** The pause states in which the audio amplifier is watched: SHORT_PAUSED, and PAUSED under HOLD. */
  predicate Listening(state: ScanState, pause: ScanModePause)
  {
    (state == Paused && pause == ScanModeHold) || state == ShortPaused
  }

  /**
   * The audio phase of scanning(): audio while listening ends the scan
   * under STOP, and otherwise (re)starts the PAUSED hold of scanDelay
   * seconds.
   */
  function AudioPhase(state: ScanState, timeout: int, pause: ScanModePause, scanDelay: int, audioActive: bool): (r: Phase)
    ensures r.StopScan? <==> Listening(state, pause) && audioActive && pause == ScanModeStop
    ensures r.Phase? && r != Phase(state, timeout) ==> r == Phase(Paused, scanDelay * 1000)
    ensures Listening(state, pause) && audioActive && pause != ScanModeStop ==> r == Phase(Paused, scanDelay * 1000)
    ensures !Listening(state, pause) || !audioActive ==> r == Phase(state, timeout)
  {
    if Listening(state, pause) && audioActive then
      if pause == ScanModeStop then StopScan else Phase(Paused, scanDelay * 1000)
    else Phase(state, timeout)
  }

  /**
   * A hold started by audio is never shortened by the next tick's carrier
   * test, since the carrier is sampled only while SCANNING.
   */
  lemma PausedIgnoresCarrier(timeout: int, dwell: int, stepTimeMs: int, tsFilter: bool, pause: ScanModePause, rf: RfInputs)
    ensures CarrierPhase(Paused, timeout, dwell, stepTimeMs, tsFilter, pause, rf) == Phase(Paused, timeout)
    ensures CarrierPhase(ShortPaused, timeout, dwell, stepTimeMs, tsFilter, pause, rf) == Phase(ShortPaused, timeout)
  {
  }

  /**
   * The two phases of one scanning() tick, before its countdown: the
   * carrier phase, then the audio phase on the state it leaves, unless
   * the carrier already ended the scan. A tick only ever pauses the scan
   * or ends it: SCANNING is restored by the countdown alone.
   */
  function TickPhase(state: ScanState, timeout: int, dwell: int, stepTimeMs: int, tsFilter: bool,
                     pause: ScanModePause, scanDelay: int, rf: RfInputs): (r: Phase)
    ensures r.StopScan? ==> pause == ScanModeStop && (rf.carrier || rf.audioActive)
    ensures r.Phase? && timeout >= 0 && scanDelay >= 0 ==> r.timeout >= 0
    ensures r.Phase? && r.state == Scanning ==> r == Phase(state, timeout)
    ensures r.Phase? && r.state == Paused && r != Phase(state, timeout) ==>
      rf.audioActive && r.timeout == scanDelay * 1000
    ensures !InCarrierWindow(state, timeout, dwell) && !(Listening(state, pause) && rf.audioActive) ==>
      r == Phase(state, timeout)
  {
    var c := CarrierPhase(state, timeout, dwell, stepTimeMs, tsFilter, pause, rf);
    if c.StopScan? then StopScan else AudioPhase(c.state, c.timeout, pause, scanDelay, rf.audioActive)
  }

  /**
   * Under the HOLD and PAUSE modes a scan never ends by itself, and a
   * signal heard in the carrier window is held for at least the short
   * pause: an analog carrier while scanning always pauses the scan.
   */
  lemma TickPausesOnAnalogCarrier(state: ScanState, timeout: int, dwell: int, stepTimeMs: int, tsFilter: bool,
                                  pause: ScanModePause, scanDelay: int, rf: RfInputs)
    requires pause != ScanModeStop && scanDelay >= 0
    requires InCarrierWindow(state, timeout, dwell) && rf.mode == Analog && rf.carrier
    ensures TickPhase(state, timeout, dwell, stepTimeMs, tsFilter, pause, scanDelay, rf).Phase?
    ensures TickPhase(state, timeout, dwell, stepTimeMs, tsFilter, pause, scanDelay, rf).state != Scanning
    ensures TickPhase(state, timeout, dwell, stepTimeMs, tsFilter, pause, scanDelay, rf) ==
      (if rf.audioActive then Phase(Paused, scanDelay * 1000) else Phase(ShortPaused, SCAN_SHORT_PAUSE_TIME))
  {
  }

  // ---------------------------------------------------------------------
  // Nuisance list

  /**
   * The nuisance search of scanning(): f is listed when an entry equal to
   * it comes before the first free (-1) slot.
   */
  ghost predicate Listed(l: seq<int>, f: int)
  {
    exists i :: 0 <= i < |l| && l[i] == f && l[i] != -1 && (forall j :: 0 <= j < i ==> l[j] != -1)
  }

  /**
   * The ring discipline: the slots before the write index are in use, and
   * the slots from it on are either all free (not yet wrapped) or all in
   * use (wrapped).
   */
  ghost predicate RingFilled(l: seq<int>, idx: int)
  {
    0 <= idx < |l| &&
    (forall j :: 0 <= j < idx ==> l[j] != -1) &&
    ((forall j :: idx <= j < |l| ==> l[j] == -1) || (forall j :: idx <= j < |l| ==> l[j] != -1))
  }

  /** The write index after a mark, modulo MAX_ZONE_SCAN_NUISANCE_CHANNELS. */
  function NextRingIndex(idx: int): (r: int)
    requires 0 <= idx < MAX_ZONE_SCAN_NUISANCE_CHANNELS
    ensures 0 <= r < MAX_ZONE_SCAN_NUISANCE_CHANNELS
    ensures r == 0 <==> idx == MAX_ZONE_SCAN_NUISANCE_CHANNELS - 1
  {
    (idx + 1) % MAX_ZONE_SCAN_NUISANCE_CHANNELS
  }

  /** clearNuisance leaves a well-formed ring in which nothing is listed. */
  lemma ClearedRing(l: seq<int>, f: int)
    requires |l| == MAX_ZONE_SCAN_NUISANCE_CHANNELS && forall i :: 0 <= i < |l| ==> l[i] == -1
    ensures RingFilled(l, 0) && !Listed(l, f)
  {
  }

  /**
   * The search stops at the first free slot or at the end: when no entry
   * before position i matches and i is free or past the end, f is not listed.
   */
  lemma NotListedPastFree(l: seq<int>, f: int, i: int)
    requires 0 <= i <= |l| && (i < |l| ==> l[i] == -1)
    requires forall j :: 0 <= j < i ==> l[j] != -1 && l[j] != f
    ensures !Listed(l, f)
  {
  }

  /**
   * Marking a frequency keeps the ring well formed and makes the frequency
   * listed, whether or not it was listed before (duplicates are kept).
   */
  lemma {:induction false} MarkIsListed(l: seq<int>, idx: int, f: int)
    requires |l| == MAX_ZONE_SCAN_NUISANCE_CHANNELS && RingFilled(l, idx) && f != -1
    ensures RingFilled(l[idx := f], NextRingIndex(idx))
    ensures Listed(l[idx := f], f)
  {
    var m := l[idx := f];
    var n := NextRingIndex(idx);
    if n == 0 {
      assert forall j :: 0 <= j < |m| ==> m[j] != -1 by {
        forall j | 0 <= j < |m|
          ensures m[j] != -1
        {
          if j < idx {
            assert l[j] != -1;
          }
        }
      }
    }
    assert m[idx] == f;
    assert forall j :: 0 <= j < idx ==> m[j] != -1;
  }

  /** Before the ring wraps, a mark never hides a frequency that was listed. */
  lemma {:induction false} MarkKeepsListed(l: seq<int>, idx: int, f: int, g: int)
    requires |l| == MAX_ZONE_SCAN_NUISANCE_CHANNELS && RingFilled(l, idx) && f != -1
    requires l[idx] == -1 && Listed(l, g)
    ensures Listed(l[idx := f], g)
  {
    var i :| 0 <= i < |l| && l[i] == g && l[i] != -1 && (forall j :: 0 <= j < i ==> l[j] != -1);
    assert i != idx;
    var m := l[idx := f];
    assert m[i] == g;
    assert forall j :: 0 <= j < i ==> m[j] != -1;
  }

  // ---------------------------------------------------------------------
  // Scan window

  /** 1 MHz in units of 10 Hz. */
  const ONE_MHZ: int := 100000

  /** The upper end the default window aims for: rx + 1 MHz, or the start of the next band when that is out of band. */
  function DefaultWindowTop(t: seq<Band>, rx: int): (up: int)
    ensures up >= rx + ONE_MHZ
    ensures InBand(t, rx + ONE_MHZ) ==> up == rx + ONE_MHZ
    ensures !InBand(t, rx + ONE_MHZ) && GetNextOrPrevBand(t, rx + ONE_MHZ, true).Some? ==>
      up == t[GetNextOrPrevBand(t, rx + ONE_MHZ, true).value].minFreq
  {
    var up := rx + ONE_MHZ;
    if !InBand(t, up) then
      match GetNextOrPrevBand(t, up, true)
      case Some(b) => t[b].minFreq
      case None => up
    else up
  }

  /**
   * The limits scanInit sets when either stored limit is 0:
   * SAFE_MIN and SAFE_MAX of rx and the top. The window always starts at
   * rx and spans at least 1 MHz.
   */
  function DefaultScanWindow(t: seq<Band>, rx: int): (r: (int, int))
    ensures r.0 == rx && r.1 >= rx + ONE_MHZ
    ensures r.1 == DefaultWindowTop(t, rx)
  {
    var up := DefaultWindowTop(t, rx);
    (if up < rx then up else rx, if up > rx then up else rx)
  }

  /**
   * In a sorted band plan both ends of the default window are in band
   * when rx is, unless there is no band at all from rx + 1 MHz upwards;
   * then the top is the out-of-band rx + 1 MHz.
   */
  lemma DefaultWindowInBand(t: seq<Band>, rx: int)
    requires SortedDisjoint(t) && InBand(t, rx)
    ensures InBand(t, DefaultScanWindow(t, rx).0)
    ensures InBand(t, DefaultScanWindow(t, rx).1) <==>
      InBand(t, rx + ONE_MHZ) || GetNextOrPrevBand(t, rx + ONE_MHZ, true).Some?
  {
    var up := rx + ONE_MHZ;
    if !InBand(t, up) && GetNextOrPrevBand(t, up, true).Some? {
      BandEdgesInBand(t, GetNextOrPrevBand(t, up, true).value);
    }
  }

  /**
   * The limits entered on the scan screen (uiVFOMode.c, 12 digits): put in
   * order, widened to at least one step, stored only if both ends are in
   * band. refreshOnEveryStep is set whether or not they are accepted.
   */
  datatype LimitEntry = LimitEntry(low: int, high: int, accepted: bool, refreshOnEveryStep: bool)

  function EnteredScanLimits(t: seq<Band>, fLower: int, fUpper: int, fStep: int): (r: LimitEntry)
    requires fStep >= 0
    ensures r.low == (if fLower <= fUpper then fLower else fUpper)
    ensures r.high - r.low >= fStep
    ensures r.high - r.low > fStep ==> r.high == (if fLower <= fUpper then fUpper else fLower)
    ensures r.accepted <==> InBand(t, r.low) && InBand(t, r.high)
    ensures r.refreshOnEveryStep <==> r.high - r.low == fStep
  {
    var lo := if fLower > fUpper then fUpper else fLower;
    var hi0 := if fLower > fUpper then fLower else fUpper;
    var hi := if hi0 - lo < fStep then lo + fStep else hi0;
    LimitEntry(lo, hi, InBand(t, lo) && InBand(t, hi), hi - lo <= fStep)
  }

  /** The order in which the two limits are typed does not matter. */
  lemma EnteredScanLimitsSymmetric(t: seq<Band>, a: int, b: int, fStep: int)
    requires fStep >= 0
    ensures EnteredScanLimits(t, a, b, fStep) == EnteredScanLimits(t, b, a, fStep)
  {
  }

  /**
   * setCurrentFreqToScanLimits: a VFO outside the scan window moves to its
   * low limit keeping the tx - rx offset; one inside stays.
   */
  function IntoScanLimits(rx: int, tx: int, low: int, high: int): (r: (int, int))
    ensures low <= high ==> low <= r.0 <= high
    ensures r.1 - r.0 == tx - rx
    ensures low <= rx <= high ==> r == (rx, tx)
    ensures rx < low || rx > high ==> r.0 == low
  {
    if rx < low || rx > high then (low, low + (tx - rx)) else (rx, tx)
  }

  /** Moving into the scan window a second time changes nothing. */
  lemma IntoScanLimitsSettles(rx: int, tx: int, low: int, high: int)
    requires low <= high
    ensures var r := IntoScanLimits(rx, tx, low, high);
      IntoScanLimits(r.0, r.1, low, high) == r
  {
  }

  // ---------------------------------------------------------------------
  // Stepping

  /** What stepFrequency does: commit a new rx/tx pair, or reject the step (error beep). */
  datatype StepResult = Committed(rx: int, tx: int) | Rejected

  /** The rx and tx stepFrequency computes before the band check. */
  function SteppedPair(rx: int, tx: int, txSelected: bool, txRxLock: bool, increment: int): (p: (int, int))
    ensures txSelected ==> p == (rx, tx + increment)
    ensures !txSelected ==> p.0 == rx + increment && p.1 == (if txRxLock then tx else tx + increment)
  {
    if txSelected then (rx, tx + increment)
    else (rx + increment, if txRxLock then tx else tx + increment)
  }

  /**
   * stepFrequency: with TX selected only tx moves; with RX selected rx
   * moves and tx follows unless the TX/RX lock is on. A new rx that is out
   * of band is replaced by the nearest band edge in the step's direction
   * (the next band's start going up, the previous band's end going down),
   * with tx equal to it; with no such band the step is rejected. The pair
   * is committed only if the new rx is in band.
   */
  function StepOutcome(t: seq<Band>, rx: int, tx: int, txSelected: bool, txRxLock: bool, increment: int): (r: StepResult)
    ensures r.Committed? ==> InBand(t, r.rx)
    ensures InBand(t, SteppedPair(rx, tx, txSelected, txRxLock, increment).0) ==>
      r == Committed(SteppedPair(rx, tx, txSelected, txRxLock, increment).0, SteppedPair(rx, tx, txSelected, txRxLock, increment).1)
    ensures var newRx := SteppedPair(rx, tx, txSelected, txRxLock, increment).0;
      !InBand(t, newRx) ==>
        match GetNextOrPrevBand(t, newRx, increment > 0)
        case None => r == Rejected
        case Some(b) =>
          var edge := if increment > 0 then t[b].minFreq else t[b].maxFreq;
          r == (if InBand(t, edge) then Committed(edge, edge) else Rejected)
  {
    var p := SteppedPair(rx, tx, txSelected, txRxLock, increment);
    if InBand(t, p.0) then Committed(p.0, p.1)
    else
      match GetNextOrPrevBand(t, p.0, increment > 0)
      case None => Rejected
      case Some(b) =>
        var edge := if increment > 0 then t[b].minFreq else t[b].maxFreq;
        if InBand(t, edge) then Committed(edge, edge) else Rejected
  }

  /**
   * In a sorted band plan, a step that leaves the band lands on the
   * nearest band edge in its direction, skipping nothing that is in band;
   * and a step into a gap is rejected only when there is no band at all
   * beyond it.
   */
  lemma StepLandsOnNearestEdge(t: seq<Band>, rx: int, tx: int, txSelected: bool, txRxLock: bool, increment: int, g: int)
    requires SortedDisjoint(t)
    requires !InBand(t, SteppedPair(rx, tx, txSelected, txRxLock, increment).0)
    ensures var newRx := SteppedPair(rx, tx, txSelected, txRxLock, increment).0;
      var r := StepOutcome(t, rx, tx, txSelected, txRxLock, increment);
      (r.Committed? ==>
         (r.rx == r.tx &&
          (increment > 0 ==> r.rx > newRx && (newRx <= g < r.rx ==> !InBand(t, g))) &&
          (increment <= 0 ==> r.rx < newRx && (r.rx < g <= newRx ==> !InBand(t, g))))) &&
      (r.Rejected? ==>
         ((increment > 0 ==> (g >= newRx ==> !InBand(t, g))) &&
          (increment <= 0 ==> (g <= newRx ==> !InBand(t, g)))))
  {
    var newRx := SteppedPair(rx, tx, txSelected, txRxLock, increment).0;
    var nb := GetNextOrPrevBand(t, newRx, increment > 0);
    if nb.Some? {
      BandEdgesInBand(t, nb.value);
      if increment > 0 {
        if newRx <= g < t[nb.value].minFreq {
          NextBandIsNearest(t, newRx, g);
        }
      } else {
        if t[nb.value].maxFreq < g <= newRx {
          PrevBandIsNearest(t, newRx, g);
        }
      }
    } else {
      if increment > 0 {
        if g >= newRx {
          NoNextBandMeansNothingAbove(t, newRx, g);
        }
      } else {
        if g <= newRx {
          NoPrevBandMeansNothingBelow(t, newRx, g);
        }
      }
    }
  }

  /** updateFrequency's result: acceptance, the new pair, and the tx sent to the radio. */
  datatype FreqUpdate = FreqUpdate(accepted: bool, rx: int, tx: int, sentTx: int)

  /**
   * updateFrequency(frequency): an in-band frequency replaces tx (TX
   * selected) or rx (RX selected; tx then moves by the same amount, and
   * falls back to the new rx if that takes it out of band). The radio is
   * told the moved pair before that fallback. An out-of-band frequency is
   * refused and nothing changes.
   */
  function UpdatedFrequency(t: seq<Band>, rx: int, tx: int, txSelected: bool, f: int): (r: FreqUpdate)
    ensures r.accepted <==> InBand(t, f)
    ensures !r.accepted ==> r.rx == rx && r.tx == tx
    ensures r.accepted && txSelected ==> r.rx == rx && r.tx == f && r.sentTx == f
    ensures r.accepted && !txSelected ==> r.rx == f && InBand(t, r.tx) && r.sentTx == tx + (f - rx)
    ensures r.accepted && !txSelected ==> (r.tx - r.rx == tx - rx <==> InBand(t, tx + (f - rx)))
    ensures r.accepted && !txSelected && r.tx != f ==> r.tx - r.rx == tx - rx
  {
    if txSelected then
      if InBand(t, f) then FreqUpdate(true, rx, f, f) else FreqUpdate(false, rx, tx, tx)
    else
      var moved := tx + (f - rx);
      if InBand(t, f) then FreqUpdate(true, f, if InBand(t, moved) then moved else f, moved)
      else FreqUpdate(false, rx, tx, tx)
  }

  // ---------------------------------------------------------------------
  // Where a frequency-scan step goes

  /** Step by an increment through stepFrequency, or jump to a scan limit. */
  datatype ScanMove = StepBy(increment: int) | JumpTo(freq: int)

  /**
   * The step decision of scanning() as the source writes it: going down,
   * it steps while rx + fStep >= low.
   */
  function ScanMoveAsWritten(rx: int, fStep: int, low: int, high: int, direction: int): (r: ScanMove)
    ensures direction == 1 ==> (r.StepBy? <==> rx + fStep <= high)
    ensures direction != 1 ==> (r.StepBy? <==> rx + fStep >= low)
    ensures r.StepBy? ==> r.increment == fStep * direction
    ensures r.JumpTo? ==> r.freq == (if direction == 1 then low else high)
  {
    if direction == 1 then
      (if rx + fStep <= high then StepBy(fStep * direction) else JumpTo(low))
    else
      (if rx + fStep >= low then StepBy(fStep * direction) else JumpTo(high))
  }

  /**
   * The step decision with the downward test the code evidently intends:
   * step while the stepped frequency stays within the scan window, else
   * wrap to the other limit.
   */
  function NextScanMove(rx: int, fStep: int, low: int, high: int, direction: int): (r: ScanMove)
    requires direction == 1 || direction == -1
    ensures direction == 1 ==> (r.StepBy? <==> rx + fStep <= high)
    ensures direction == -1 ==> (r.StepBy? <==> rx - fStep >= low)
    ensures low <= rx <= high && fStep >= 0 && r.StepBy? ==> low <= rx + r.increment <= high
    ensures r.StepBy? ==> r.increment == fStep * direction
    ensures r.JumpTo? ==> r.freq == (if direction == 1 then low else high)
  {
    if direction == 1 then
      (if rx + fStep <= high then StepBy(fStep * direction) else JumpTo(low))
    else
      (if rx - fStep >= low then StepBy(fStep * direction) else JumpTo(high))
  }

  /**
   * The VFO pair after a scan move: a step goes through stepFrequency (a
   * rejected step leaves the pair); a jump sets rx to the limit and keeps
   * the tx - rx offset.
   */
  function AfterScanMove(t: seq<Band>, rx: int, tx: int, txSelected: bool, txRxLock: bool, m: ScanMove): (r: (int, int))
    ensures m.JumpTo? ==> r == (m.freq, m.freq + (tx - rx))
    ensures m.StepBy? && !txSelected && InBand(t, rx + m.increment) ==> r.0 == rx + m.increment
    ensures m.StepBy? ==> match StepOutcome(t, rx, tx, txSelected, txRxLock, m.increment)
                          case Committed(a, b) => r == (a, b)
                          case Rejected => r == (rx, tx)
  {
    match m
    case JumpTo(f) => (f, f + (tx - rx))
    case StepBy(i) =>
      match StepOutcome(t, rx, tx, txSelected, txRxLock, i)
      case Committed(a, b) => (a, b)
      case Rejected => (rx, tx)
  }

  /**
   * With the intended test, a frequency scan over in-band limits never
   * leaves its window: every step, including one that crosses a gap in
   * the band plan, lands between the low and the high limit.
   */
  lemma {:induction false} ScanStaysWithinLimits(t: seq<Band>, rx: int, tx: int, txSelected: bool, txRxLock: bool,
                                                 fStep: int, low: int, high: int, direction: int)
    requires SortedDisjoint(t) && InBand(t, low) && InBand(t, high)
    requires low <= rx <= high && fStep > 0 && (direction == 1 || direction == -1)
    ensures var r := AfterScanMove(t, rx, tx, txSelected, txRxLock, NextScanMove(rx, fStep, low, high, direction));
      low <= r.0 <= high
  {
    var m := NextScanMove(rx, fStep, low, high, direction);
    if m.StepBy? {
      StepWithinLimits(t, rx, tx, txSelected, txRxLock, m.increment, low, high);
    }
  }

  /** A step whose stepped rx lies inside in-band limits ends inside them. */
  lemma StepWithinLimits(t: seq<Band>, rx: int, tx: int, txSelected: bool, txRxLock: bool, increment: int, low: int, high: int)
    requires SortedDisjoint(t) && InBand(t, low) && InBand(t, high)
    requires low <= SteppedPair(rx, tx, txSelected, txRxLock, increment).0 <= high
    ensures var r := StepOutcome(t, rx, tx, txSelected, txRxLock, increment);
      r.Committed? && low <= r.rx <= high
  {
    var newRx := SteppedPair(rx, tx, txSelected, txRxLock, increment).0;
    if !InBand(t, newRx) {
      var e;
      if increment > 0 {
        e := GapStepUp(t, newRx, high);
      } else {
        e := GapStepDown(t, newRx, low);
      }
      assert StepOutcome(t, rx, tx, txSelected, txRxLock, increment) == Committed(e, e);
    }
  }

  /** Stepping up into a gap below an in-band high limit commits the next band's start, within the limit. */
  lemma GapStepUp(t: seq<Band>, f: int, high: int) returns (e: int)
    requires SortedDisjoint(t) && InBand(t, high) && f <= high && !InBand(t, f)
    ensures GetNextOrPrevBand(t, f, true).Some?
    ensures e == t[GetNextOrPrevBand(t, f, true).value].minFreq
    ensures InBand(t, e) && f < e <= high
  {
    StepUpIntoWindow(t, f, high);
    var b := GetNextOrPrevBand(t, f, true).value;
    BandEdgesInBand(t, b);
    e := t[b].minFreq;
  }

  /** Stepping down into a gap above an in-band low limit commits the previous band's end, within the limit. */
  lemma GapStepDown(t: seq<Band>, f: int, low: int) returns (e: int)
    requires SortedDisjoint(t) && InBand(t, low) && low <= f && !InBand(t, f)
    ensures GetNextOrPrevBand(t, f, false).Some?
    ensures e == t[GetNextOrPrevBand(t, f, false).value].maxFreq
    ensures InBand(t, e) && low <= e < f
  {
    StepDownIntoWindow(t, f, low);
    var b := GetNextOrPrevBand(t, f, false).value;
    BandEdgesInBand(t, b);
    e := t[b].maxFreq;
  }

  /** A frequency in a gap below an in-band limit has a next band, starting no higher than the limit. */
  lemma StepUpIntoWindow(t: seq<Band>, f: int, high: int)
    requires SortedDisjoint(t) && InBand(t, high) && f <= high && !InBand(t, f)
    ensures GetNextOrPrevBand(t, f, true).Some?
    ensures f < t[GetNextOrPrevBand(t, f, true).value].minFreq <= high
  {
    var c := GetBandFromFrequency(t, high).value;
    assert !Contains(t[c], f);
    assert t[c].minFreq > f;
    var nb := NextBandFrom(t, f, 0);
    assert nb.Some?;
    var b := nb.value;
    assert b <= c;
    if b < c {
      assert t[b].maxFreq < t[c].minFreq;
    }
  }

  /** A frequency in a gap above an in-band limit has a previous band, ending no lower than the limit. */
  lemma StepDownIntoWindow(t: seq<Band>, f: int, low: int)
    requires SortedDisjoint(t) && InBand(t, low) && low <= f && !InBand(t, f)
    ensures GetNextOrPrevBand(t, f, false).Some?
    ensures low <= t[GetNextOrPrevBand(t, f, false).value].maxFreq < f
  {
    var l := GetBandFromFrequency(t, low).value;
    assert !Contains(t[l], f);
    assert t[l].maxFreq < f;
    var pb := PrevBandBelow(t, f, |t|);
    assert pb.Some?;
    var p := pb.value;
    assert p >= l;
    if p > l {
      assert t[l].maxFreq < t[p].minFreq;
    }
  }

  /**
   * As written, a downward scan from its low limit steps below it: with
   * one band covering everything, limits 1000..2000 and a step of 100,
   * rx = 1000 goes to 900; the intended test wraps it to 2000.
   */
  lemma ScanDownLeavesWindowAsWritten()
    ensures var t := [Band(0, 1000000)];
      AfterScanMove(t, 1000, 1000, false, false, ScanMoveAsWritten(1000, 100, 1000, 2000, -1)).0 == 900 &&
      AfterScanMove(t, 1000, 1000, false, false, NextScanMove(1000, 100, 1000, 2000, -1)).0 == 2000
  {
    var t := [Band(0, 1000000)];
    assert Contains(t[0], 900);
    assert InBand(t, 900);
  }

  // ---------------------------------------------------------------------
  // Keys while scanning

  /** The keys the scan reacts to; KeyNone is keys.key == 0. */
  datatype Key = KeyNone | KeyLeft | KeyRight | KeyUp | KeyDown | KeyFrontUp | KeyFrontDown
               | KeyRotaryIncrement | KeyRotaryDecrement | KeyStar | KeyOther

  /** What handleEvent does with a key event while a scan or sweep is active. */
  datatype KeyAction = MarkNuisance | ReverseDirection | StopScanning | PassOn

  /** The keys that move a sweep rather than stop it. */
  predicate SweepKey(k: Key)
  {
    k == KeyRotaryIncrement || k == KeyRotaryDecrement || k == KeyFrontUp || k == KeyFrontDown ||
    k == KeyLeft || k == KeyRight || k == KeyUp || k == KeyDown || k == KeyStar
  }

  /**
   * The MD2017 scan barrier of handleEvent: the right key marks a nuisance
   * frequency while PAUSED, the left key reverses the direction in any
   * state (both only without SK2, and not in dual watch or sweep); the
   * keys that continue a frequency scan by hand, and the sweep's own keys
   * in sweep mode, pass on; every other key stops the scan.
   */
  function ScanKeyAction(k: Key, sk2Down: bool, state: ScanState, mode: ScreenMode): (r: KeyAction)
    ensures r == MarkNuisance ==> k == KeyRight && !sk2Down && state == Paused && mode != ScreenDualScan && mode != ScreenSweep
    ensures r == ReverseDirection ==> k == KeyLeft && !sk2Down && mode != ScreenDualScan && mode != ScreenSweep
    ensures r == PassOn <==>
      ((r != MarkNuisance && r != ReverseDirection) &&
       ((mode == ScreenScan && !sk2Down && (k == KeyFrontUp || k == KeyRotaryIncrement)) || (mode == ScreenSweep && SweepKey(k))))
  {
    if !sk2Down && state == Paused && k == KeyRight && mode != ScreenDualScan && mode != ScreenSweep then MarkNuisance
    else if !sk2Down && k == KeyLeft && mode != ScreenDualScan && mode != ScreenSweep then ReverseDirection
    else if !((k == KeyFrontUp || k == KeyRotaryIncrement) && !sk2Down && mode == ScreenScan) && !(SweepKey(k) && mode == ScreenSweep)
    then StopScanning
    else PassOn
  }

  /**
   * Every key stops dual watch; the sweep's keys never stop a sweep and
   * any other key does; and SK2 held turns the nuisance and direction
   * keys into stop keys too.
   */
  lemma ScanKeyRoles(k: Key, state: ScanState)
    ensures ScanKeyAction(k, false, state, ScreenDualScan) == StopScanning
    ensures ScanKeyAction(k, true, state, ScreenDualScan) == StopScanning
    ensures SweepKey(k) ==> ScanKeyAction(k, false, state, ScreenSweep) == PassOn
    ensures !SweepKey(k) ==> ScanKeyAction(k, false, state, ScreenSweep) == StopScanning
    ensures (k == KeyLeft || k == KeyRight) ==> ScanKeyAction(k, true, state, ScreenScan) == StopScanning
    ensures ScanKeyAction(KeyRight, false, Scanning, ScreenScan) == StopScanning
  {
  }

  /** What the tone-scan barrier does with an event. */
  datatype ToneKeyAction = ToneReverse | ToneStop | ToneIgnore

  /**
   * While a tone scan runs: the left key without SK2 reverses the tone
   * direction; releasing the ORANGE button or any key stops it; nothing
   * else reaches the rest of the screen.
   */
  function ToneScanKeyAction(keyEvent: bool, k: Key, sk2Down: bool, keyReleased: bool, orangeReleased: bool): (r: ToneKeyAction)
    ensures r == ToneReverse <==> keyEvent && !sk2Down && k == KeyLeft
    ensures r == ToneStop ==> orangeReleased || (k != KeyNone && keyReleased)
    ensures r == ToneIgnore ==> !orangeReleased && (k == KeyNone || !keyReleased)
  {
    if keyEvent && !sk2Down && k == KeyLeft then ToneReverse
    else if orangeReleased || (k != KeyNone && keyReleased) then ToneStop
    else ToneIgnore
  }

  // ---------------------------------------------------------------------
  // TG-list contact

  /** currentRxGroupData: 32 contact slots and at most 32 talkgroups in use. */
  predicate RxGroupWellFormed(g: RxGroup)
  {
    |g.contacts| == 32 && g.numTGs <= 32
  }

  /**
   * checkAndFixIndexInRxGroup: an index beyond a non-empty TG list is
   * reset to its first entry.
   */
  function FixedRxGroupIndex(g: RxGroup, idx: int): (r: int)
    ensures r == idx || r == 0
    ensures g.numTGs > 0 && idx >= 0 ==> 0 <= r < g.numTGs
    ensures g.numTGs <= 0 || idx <= g.numTGs - 1 ==> r == idx
  {
    if g.numTGs > 0 && idx > g.numTGs - 1 then 0 else idx
  }

  /**
   * uiVFOLoadContact: the TG-list entry at the current index when the VFO
   * has a named receive group with that entry, else the channel's own
   * contact. Returns the contact index loaded.
   */
  function ContactToLoad(g: RxGroup, idx: int, ch: Channel): (r: int)
    requires RxGroupWellFormed(g)
    ensures g.hasName && 0 <= idx < g.numTGs ==> r == g.contacts[idx]
    ensures !g.hasName || idx >= g.numTGs || idx < 0 ==> r == ch.contact
  {
    if g.hasName && 0 <= idx < g.numTGs then g.contacts[idx] else ch.contact
  }

  /** After the index is fixed, a named, non-empty TG list always supplies the contact. */
  lemma FixThenLoadUsesGroup(g: RxGroup, idx: int, ch: Channel)
    requires RxGroupWellFormed(g) && g.hasName && g.numTGs > 0 && idx >= 0
    ensures ContactToLoad(g, FixedRxGroupIndex(g, idx), ch) == g.contacts[FixedRxGroupIndex(g, idx)]
  {
  }
}
