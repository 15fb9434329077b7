/**
 * The VFO screen's scan engine (uiVFOMode.c): band-aware stepping, the
 * frequency scan and dual watch, the spectrum sweep and the tone scan.
 * The state the source keeps in uiDataGlobal.Scan, in the file's statics
 * (selectedFreq, screenOperationMode, prevCSSTone, the sweep buffer and
 * settings) and in the current VFO record becomes the fields of one
 * object; the settings record and the VFO records live in the settings
 * store. Every call into the radio is appended to a command log instead.
 */
module VfoMode {
  import opened Wrappers
  import opened UiGlobals
  import opened Bands
  import opened Radio
  import opened Codeplug
  import opened Settings
  import opened SweepWord
  import opened SweepSamples
  import opened SweepScan
  import opened Tones
  import opened ScanLogic

  /** VFO_SWEEP_SCAN_FREQ_STEP_TABLE: how far the up and down keys move the sweep centre. */
  const SWEEP_FREQ_STEP: seq<int> := [125, 250, 500, 1000, 2500, 5000, 10000]

  /** Ticks a sweep column is listened to. */
  const VFO_SWEEP_STEP_TIME: int := 25

  /** The timeout a scan restarts with after a manual step or its start. */
  const SCAN_RESUME_TIME: int := 500

  /** The dwell on each VFO while dual watching. */
  const DUAL_WATCH_DWELL_TIME: int := 135

  /** The dwell the scan is parked on while the receiver is powered down. */
  const RX_OFF_DWELL_TIME: int := 10000

  /** trxSetFrequency for a VFO record, with DMO forced when the record asks for it. */
  function Tuned(ch: Channel, rx: int, tx: int): Command
  {
    SetFrequency(rx, tx, DmrModeFor(ch))
  }

  /** What stepFrequency sends to the radio: the new pair, then a colour-code resync unless sweeping. */
  function StepCommands(ch: Channel, o: StepResult, mode: ScreenMode): (r: seq<Command>)
    ensures o.Rejected? ==> r == []
    ensures o.Committed? ==> |r| == (if mode == ScreenSweep then 1 else 2) && r[0] == Tuned(ch, o.rx, o.tx)
  {
    match o
    case Committed(rx, tx) => [Tuned(ch, rx, tx)] + (if mode != ScreenSweep then [ClearColorCodeSync] else [])
    case Rejected => []
  }

  /** A VFO record after a step: the committed pair, or unchanged. */
  function Stepped(ch: Channel, o: StepResult): (r: Channel)
    ensures o.Rejected? ==> r == ch
    ensures o.Committed? ==> r == ch.(rxFreq := o.rx, txFreq := o.tx)
  {
    match o
    case Committed(rx, tx) => ch.(rxFreq := rx, txFreq := tx)
    case Rejected => ch
  }

  /**
   * The decision of stepFrequency: step the selected frequency (rx moves
   * tx along unless locked), replace a rx that leaves the bands by the
   * edge of the next band in the step's direction with tx equal to it, and
   * refuse the step when there is no such band or the rx is still out of
   * band.
   */
  method StepTarget(t: seq<Band>, rx: int, tx: int, txSelected: bool, txRxLock: bool, increment: int)
    returns (r: StepResult)
    ensures r == StepOutcome(t, rx, tx, txSelected, txRxLock, increment)
  {
    var newTx: int, newRx: int;
    if txSelected {
      newTx := tx + increment;
      newRx := rx;
    } else {
      newRx := rx + increment;
      newTx := if !txRxLock then tx + increment else tx;
    }
    if !InBand(t, newRx) {
      var band := GetNextOrPrevBand(t, newRx, increment > 0);
      if band.Some? {
        newRx := if increment > 0 then t[band.value].minFreq else t[band.value].maxFreq;
        newTx := newRx;
      } else {
        return Rejected;
      }
    }
    if InBand(t, newRx) {
      r := Committed(newRx, newTx);
    } else {
      r := Rejected;
    }
  }

  /** memset(&a[lo], 0, hi - lo). */
  method ClearRange(a: array<Byte>, lo: nat, hi: nat)
    requires lo <= hi <= a.Length
    modifies a
    ensures forall j :: lo <= j < hi ==> a[j] == 0
    ensures forall j :: 0 <= j < a.Length && !(lo <= j < hi) ==> a[j] == old(a[j])
  {
    var i := lo;
    while i < hi
      invariant lo <= i <= hi
      invariant forall j :: lo <= j < i ==> a[j] == 0
      invariant forall j :: 0 <= j < a.Length && !(lo <= j < i) ==> a[j] == old(a[j])
    {
      a[i] := 0;
      i := i + 1;
    }
  }

  /** memcpy the samples k columns to the left, then memset the k freed columns on the right. */
  method PanLeft(a: array<Byte>, k: nat)
    requires a.Length == N && 0 < k <= 8
    modifies a
    ensures a[..] == ShiftedLeft(old(a[..]), k)
  {
    ghost var s0 := a[..];
    var i := 0;
    while i < N - k
      invariant 0 <= i <= N - k
      invariant forall j :: 0 <= j < i ==> a[j] == s0[j + k]
      invariant forall j :: i <= j < N ==> a[j] == s0[j]
    {
      a[i] := a[i + k];
      i := i + 1;
    }
    ClearRange(a, N - k, N);
    ghost var r := ShiftedLeft(s0, k);
    assert forall j :: 0 <= j < N ==> a[j] == r[j];
    assert a[..] == r;
  }

  /** memmove the samples k columns to the right, then memset the k freed columns on the left. */
  method PanRight(a: array<Byte>, k: nat)
    requires a.Length == N && 0 < k <= 8
    modifies a
    ensures a[..] == ShiftedRight(old(a[..]), k)
  {
    ghost var s0 := a[..];
    var i := N;
    while i > k
      invariant k <= i <= N
      invariant forall j :: i <= j < N ==> a[j] == s0[j - k]
      invariant forall j :: 0 <= j < i ==> a[j] == s0[j]
    {
      i := i - 1;
      a[i] := a[i - k];
    }
    ClearRange(a, 0, k);
    ghost var r := ShiftedRight(s0, k);
    assert forall j :: 0 <= j < N ==> a[j] == r[j];
    assert a[..] == r;
  }

  /** Zoom out: pair averages into the middle half of a cleared buffer. */
  method Compress(a: array<Byte>)
    requires a.Length == N
    modifies a
    ensures a[..] == Compressed(old(a[..]))
  {
    ghost var c := Compressed(a[..]);
    var tmp := new Byte[N](_ => 0);
    var i := 0;
    while i < N
      invariant 0 <= i <= N && i % 2 == 0
      invariant a[..] == old(a[..])
      invariant forall j :: 0 <= j < NEW_START_SAMPLE + i / 2 ==> tmp[j] == c[j]
      invariant forall j :: NEW_START_SAMPLE + i / 2 <= j < N ==> tmp[j] == 0
    {
      // the source's inner loop over the two samples of a pair
      var average := a[i] as int + a[i + 1] as int;
      assert 2 * (i / 2) == i;
      assert c[NEW_START_SAMPLE + i / 2] == Average(a[i], a[i + 1]);
      tmp[i / 2 + NEW_START_SAMPLE] := (average / 2) as Byte;
      i := i + 2;
    }
    forall j | 0 <= j < N {
      a[j] := tmp[j];
    }
    assert a[..] == c;
  }

  /** Zoom in: a two-point interpolation of the middle half across the whole buffer. */
  method Expand(a: array<Byte>)
    requires a.Length == N
    modifies a
    ensures a[..] == Expanded(old(a[..]))
  {
    ghost var s0 := a[..];
    var tmp := new Byte[N](_ => 0);
    var newValue: Byte := 0;
    var i := 0;
    while i < N - 1
      invariant 0 <= i <= N - 1
      invariant a[..] == s0
      invariant forall j :: 0 <= j < i ==> tmp[j] == Average(s0[NEW_START_SAMPLE + j / 2], s0[NEW_START_SAMPLE + j / 2 + 1])
      invariant i > 0 ==> newValue == tmp[i - 1]
    {
      newValue := Average(a[NEW_START_SAMPLE + i / 2], a[NEW_START_SAMPLE + i / 2 + 1]);
      tmp[i] := newValue;
      i := i + 1;
    }
    tmp[N - 1] := newValue;
    ghost var e := Expanded(s0);
    assert forall j :: 0 <= j < N ==> tmp[j] == e[j];
    forall j | 0 <= j < N {
      a[j] := tmp[j];
    }
    assert a[..] == e;
  }

  /** The pan of vfoSweepUpdateSamples on the buffer; the write index it leaves. */
  method Pan(a: array<Byte>, idx: int, shift: int) returns (newIdx: int)
    requires a.Length == N && -8 <= shift <= 8
    modifies a
    ensures a[..] == Panned(old(a[..]), shift)
    ensures newIdx == (if shift != 0 then IndexAfterPan(shift) else idx)
  {
    newIdx := idx;
    if shift != 0 {
      if shift > 0 {
        newIdx := N - 1 - shift;
        PanLeft(a, shift);
      } else {
        newIdx := 0;
        PanRight(a, -shift);
      }
    }
  }

  /** The rescale of vfoSweepUpdateSamples on the buffer; the write index it leaves. */
  method Rescale(a: array<Byte>, idx: int, rescale: int) returns (newIdx: int)
    requires a.Length == N
    modifies a
    ensures a[..] == Rescaled(old(a[..]), rescale)
    ensures newIdx == (if rescale > 0 then (N * 3) / 4 else if rescale < 0 then 0 else idx)
  {
    newIdx := idx;
    if rescale != 0 {
      if rescale > 0 {
        Compress(a);
        newIdx := (N * 3) / 4;
      } else {
        Expand(a);
        newIdx := 0;
      }
    }
  }

  class VfoScreen {
    const settings: SettingsStore
    /** RADIO_HARDWARE_FREQUENCY_BANDS */
    const bands: seq<Band>
    /** VFO_FREQ_STEP_TABLE, indexed by the step nibble of VFOflag5 */
    const freqSteps: seq<int>
    /** VFO_SWEEP_SCAN_RANGE_SAMPLE_STEP_TABLE */
    const sweepRangeSteps: seq<int>
    const tones: ToneTables
    /** uiDataGlobal.Scan.nuisanceDelete */
    const nuisanceDelete: array<int>
    /** vfoSweepSamples */
    const samples: array<Byte>

    /** screenOperationMode, one per VFO */
    var screenMode: seq<ScreenMode>
    /** selectedFreq == VFO_SELECTED_FREQUENCY_INPUT_TX */
    var txSelected: bool
    /** uiDataGlobal.QuickMenu.tmpTxRxLockMode */
    var txRxLock: bool
    var active: bool
    var toneActive: bool
    var state: ScanState
    var scanType: ScanType
    var timeout: int
    var dwellTime: int
    var direction: int
    var stepTimeMs: int
    var refreshOnEveryStep: bool
    var nuisanceDeleteIndex: int
    var scanSweepCurrentFreq: int
    var sweepSampleIndex: int
    var sweepSampleIndexIncrement: int
    /** sweepStepSizeIndex, vfoSweepRssiNoiseFloor, vfoSweepGain */
    var sweep: SweepSettings
    /** scanToneIndex and toneScanType */
    var toneCursor: Cursor
    /** toneScanCSS: the family the tone scan is limited to (CssNone: all) */
    var toneScanCss: CssType
    /** prevCSSTone; None is the sentinel CODEPLUG_CSS_TONE_NONE - 1 */
    var prevCssTone: Option<int>
    /** Every command sent to the radio, in order. */
    var log: seq<Command>

    /**
     * The invariant of the screen, in parts framed by what each reads: the
     * tables and arrays fixed at construction, the settings store, and the
     * ranges the scan, sweep and tone-scan fields keep.
     */
    ghost predicate Valid()
      reads settings`nv, settings`vfo, settings`codeplugVfo, settings`userBands, settings`storedBlob
      reads `screenMode, `nuisanceDeleteIndex, `timeout, `dwellTime, `stepTimeMs, `direction, `sweep, `sweepSampleIndex,
        `sweepSampleIndexIncrement, `toneCursor
    {
      // Each invariant is bound to a name before it is returned, so that
      // proving it is one obligation rather than one per conjunct.
      var ok := ConstsValid() && settings.Valid() && ModesValid() && ScanValid() && SweepValid() && ToneValid();
      ok
    }

    ghost predicate ConstsValid()
    {
      var ok := SortedDisjoint(bands) &&
        |freqSteps| == 16 && (forall i :: 0 <= i < |freqSteps| ==> freqSteps[i] > 0) &&
        |sweepRangeSteps| == SWEEP_STEP_TABLE_LENGTH &&
        TablesValid(tones) && |tones.ctcss| <= SCAN_TONE_INTERVAL / 2 &&
        nuisanceDelete.Length == MAX_ZONE_SCAN_NUISANCE_CHANNELS && samples.Length == N;
      ok
    }

    ghost predicate ModesValid()
      reads `screenMode
    {
      |screenMode| == 2
    }

    ghost predicate ScanValid()
      reads `nuisanceDeleteIndex, `timeout, `dwellTime, `stepTimeMs, `direction
    {
      var ok := 0 <= nuisanceDeleteIndex < MAX_ZONE_SCAN_NUISANCE_CHANNELS &&
        timeout >= 0 && dwellTime >= 0 && stepTimeMs >= 0 && (direction == 1 || direction == -1);
      ok
    }

    ghost predicate SweepValid()
      reads `sweep, `sweepSampleIndex, `sweepSampleIndexIncrement
    {
      var ok := 0 <= sweepSampleIndex && 0 <= sweepSampleIndexIncrement && SweepSettingsValid();
      ok
    }

    ghost predicate SweepSettingsValid()
      reads `sweep
    {
      var ok := 0 <= sweep.stepIndex <= MAX_STEP_INDEX && 0 <= sweep.noiseFloor < 32 && 0 <= sweep.gain < 128;
      ok
    }

    ghost predicate ToneValid()
      reads `toneCursor
    {
      var ok := ConstsValid() && CursorValid(tones, toneCursor);
      ok
    }

    /** The power-up state: everything zero (the C statics), the scan direction up. */
    constructor (s: SettingsStore, t: seq<Band>, steps: seq<int>, rangeSteps: seq<int>, tt: ToneTables)
      requires s.Valid() && SortedDisjoint(t)
      requires |steps| == 16 && forall i :: 0 <= i < |steps| ==> steps[i] > 0
      requires |rangeSteps| == SWEEP_STEP_TABLE_LENGTH
      requires TablesValid(tt) && |tt.ctcss| <= SCAN_TONE_INTERVAL / 2
      ensures Valid()
      ensures settings == s && bands == t && freqSteps == steps && sweepRangeSteps == rangeSteps && tones == tt
      ensures fresh(nuisanceDelete) && fresh(samples)
      ensures !active && !toneActive && state == Scanning && log == []
      ensures screenMode == [ScreenNormal, ScreenNormal]
    {
      settings := s;
      bands := t;
      freqSteps := steps;
      sweepRangeSteps := rangeSteps;
      tones := tt;
      nuisanceDelete := new int[MAX_ZONE_SCAN_NUISANCE_CHANNELS](_ => 0);
      samples := new Byte[N](_ => 0);
      screenMode := [ScreenNormal, ScreenNormal];
      txSelected := false;
      txRxLock := false;
      active := false;
      toneActive := false;
      state := Scanning;
      scanType := NormalStep;
      timeout := 0;
      dwellTime := 0;
      direction := 1;
      stepTimeMs := 0;
      refreshOnEveryStep := false;
      nuisanceDeleteIndex := 0;
      scanSweepCurrentFreq := 0;
      sweepSampleIndex := 0;
      sweepSampleIndexIncrement := 0;
      sweep := SweepSettings(0, 0, 0);
      toneCursor := Cursor(0, Ctcss);
      toneScanCss := CssNone;
      prevCssTone := None;
      log := [];
    }

    function Vfo(): (v: nat)
      reads settings`nv
      requires settings.NvValid()
      ensures v < 2
    {
      settings.nv.currentVfoNumber
    }

    /** currentChannelData */
    function CurrentChannel(): Channel
      reads settings`nv, settings`vfo
      requires settings.NvValid() && settings.VfosValid()
    {
      settings.vfo[Vfo()]
    }

    function Mode(): ScreenMode
      reads settings`nv, `screenMode
      requires settings.NvValid() && ModesValid()
    {
      screenMode[Vfo()]
    }

    /** uiVFOModeIsScanning: a scan, dual watch, sweep or tone scan is running. */
    predicate IsScanning()
      reads `toneActive, `active
    {
      toneActive || active
    }

    /**
     * uiVFOModeDualWatchIsScanning; whether the VFO screen is the current
     * menu is a parameter.
     */
    predicate DualWatchIsScanning(inVfoMenu: bool)
      reads settings`nv, `screenMode, `active, `state
      requires settings.NvValid() && ModesValid()
    {
      inVfoMenu && active && state == Scanning && Mode() == ScreenDualScan
    }

    /**
     * uiVFOModeSweepScanning: a sweep is running, and not paused unless
     * includePaused is set.
     */
    predicate SweepScanning(inVfoMenu: bool, includePaused: bool)
      reads settings`nv, `screenMode, `active, `state
      requires settings.NvValid() && ModesValid()
    {
      inVfoMenu && active && (if includePaused then state == Scanning || state == Paused else state == Scanning) &&
      Mode() == ScreenSweep
    }

    /** VFO_FREQ_STEP_TABLE[VFOflag5 >> 4]: the current VFO's step. */
    function FreqStep(): (r: int)
      reads settings`nv, settings`vfo
      requires ConstsValid() && settings.NvValid() && settings.VfosValid()
      ensures r > 0
    {
      freqSteps[StepIndex(CurrentChannel())]
    }

    function ScanLow(): int
      reads settings`nv
      requires settings.NvValid()
    {
      settings.nv.vfoScanLow[Vfo()]
    }

    function ScanHigh(): int
      reads settings`nv
      requires settings.NvValid()
    {
      settings.nv.vfoScanHigh[Vfo()]
    }

    /** What stepFrequency(increment) decides from the current state. */
    function StepFor(increment: int): StepResult
      reads settings`nv, settings`vfo, `txSelected, `txRxLock
      requires settings.NvValid() && settings.VfosValid()
    {
      StepOutcome(bands, CurrentChannel().rxFreq, CurrentChannel().txFreq, txSelected, txRxLock, increment)
    }

    ghost function VfosAfterStep(increment: int): seq<Channel>
      reads settings`nv, settings`vfo, `txSelected, `txRxLock
      requires settings.NvValid() && settings.VfosValid()
    {
      settings.vfo[Vfo() := Stepped(CurrentChannel(), StepFor(increment))]
    }

    ghost function CommandsAfterStep(increment: int): seq<Command>
      reads settings`nv, settings`vfo, `txSelected, `txRxLock, `screenMode
      requires settings.NvValid() && settings.VfosValid() && ModesValid()
    {
      StepCommands(CurrentChannel(), StepFor(increment), Mode())
    }

    /** The retune that ends vfoSweepUpdateSamples while the sweep runs. */
    ghost function SweepRetuneCommands(): seq<Command>
      reads settings`nv, settings`vfo, `state, `scanSweepCurrentFreq
      requires settings.NvValid() && settings.VfosValid()
    {
      if state == Scanning then [Tuned(CurrentChannel(), scanSweepCurrentFreq, CurrentChannel().txFreq)] else []
    }

    /** After a sample update: tuned to the write column's frequency with a fresh sweep step, if the sweep runs. */
    ghost predicate SweepRetuned(oldFreq: int, oldTimeout: int)
      reads settings`nv, settings`vfo, `state, `scanSweepCurrentFreq, `sweep, `sweepSampleIndex, `timeout
      requires ConstsValid() && settings.NvValid() && settings.VfosValid() && SweepSettingsValid()
    {
      if state == Scanning then
        scanSweepCurrentFreq == SweepFrequency(CurrentChannel().rxFreq, sweepRangeSteps[sweep.stepIndex], sweepSampleIndex) &&
        timeout == VFO_SWEEP_STEP_TIME
      else scanSweepCurrentFreq == oldFreq && timeout == oldTimeout
    }

    /** The increment of an up-key step: the sweep step while sweeping, the VFO step (towards the scan direction while scanning) otherwise. */
    function UpIncrement(): int
      reads settings`nv, settings`vfo, `active, `screenMode, `sweep, `direction
      requires ConstsValid() && settings.NvValid() && settings.VfosValid() && ModesValid() && SweepSettingsValid()
    {
      if active && Mode() == ScreenSweep then SWEEP_FREQ_STEP[sweep.stepIndex]
      else if active then FreqStep() * direction
      else FreqStep()
    }

    /** The increment of a down-key step: minus the sweep step in sweep mode, minus the VFO step otherwise. */
    function DownIncrement(): int
      reads settings`nv, settings`vfo, `screenMode, `sweep
      requires ConstsValid() && settings.NvValid() && settings.VfosValid() && ModesValid() && SweepSettingsValid()
    {
      if Mode() == ScreenSweep then -SWEEP_FREQ_STEP[sweep.stepIndex] else -FreqStep()
    }

    /**
     * stepFrequency: the step decided by StepTarget is written to the
     * current VFO and sent to the radio; a refused step changes nothing.
     */
    method StepFrequency(increment: int)
      requires Valid()
      modifies settings`vfo, `log
      ensures Valid()
      ensures settings.vfo == old(VfosAfterStep(increment))
      ensures log == old(log) + old(CommandsAfterStep(increment))
    {
      var ch := CurrentChannel();
      var mode := Mode();
      var r := StepTarget(bands, ch.rxFreq, ch.txFreq, txSelected, txRxLock, increment);
      if r.Committed? {
        settings.vfo := settings.vfo[Vfo() := ch.(txFreq := r.tx, rxFreq := r.rx)];
        log := log + [Tuned(ch, r.rx, r.tx)];
        if mode != ScreenSweep {
          log := log + [ClearColorCodeSync];
        }
      } else {
        assert settings.vfo == settings.vfo[Vfo() := ch];
      }
    }

    /**
     * updateFrequency: a typed-in frequency replaces the selected one if
     * it is in band; rx drags tx along by the same amount, unless that
     * takes tx out of band, when tx becomes the new rx. The VFOs are marked
     * dirty either way.
     */
    method UpdateFrequency(f: int)
      requires Valid()
      modifies settings`vfo, settings`vfoDirty, `log
      ensures Valid() && settings.vfoDirty
      ensures var ch := old(CurrentChannel());
        var u := UpdatedFrequency(bands, ch.rxFreq, ch.txFreq, old(txSelected), f);
        settings.vfo == old(settings.vfo)[Vfo() := ch.(rxFreq := u.rx, txFreq := u.tx)] &&
        log == old(log) + (if u.accepted then [Tuned(ch, u.rx, u.sentTx)] else [])
    {
      var ch := CurrentChannel();
      ghost var v := Vfo();
      if txSelected {
        if InBand(bands, f) {
          settings.vfo := settings.vfo[Vfo() := ch.(txFreq := f)];
          log := log + [Tuned(ch, ch.rxFreq, f)];
        } else {
          assert settings.vfo == settings.vfo[v := ch];
        }
      } else {
        var delta := f - ch.rxFreq;
        if InBand(bands, f) {
          var moved := ch.txFreq + delta;
          log := log + [Tuned(ch, f, moved)];
          if InBand(bands, moved) {
            settings.vfo := settings.vfo[Vfo() := ch.(rxFreq := f, txFreq := moved)];
          } else {
            settings.vfo := settings.vfo[Vfo() := ch.(rxFreq := f, txFreq := f)];
          }
        } else {
          assert settings.vfo == settings.vfo[v := ch];
        }
      }
      settings.vfoDirty := true;
    }

    /**
     * setCurrentFreqToScanLimits: a VFO outside its scan window moves to
     * the low limit with its tx - rx offset, and the radio is retuned; one
     * inside is left alone.
     */
    method SetCurrentFreqToScanLimits()
      requires Valid()
      modifies settings`vfo, `log
      ensures Valid()
      ensures var ch := old(CurrentChannel());
        var p := IntoScanLimits(ch.rxFreq, ch.txFreq, ScanLow(), ScanHigh());
        settings.vfo == old(settings.vfo)[Vfo() := ch.(rxFreq := p.0, txFreq := p.1)] &&
        log == old(log) + (if ch.rxFreq < ScanLow() || ch.rxFreq > ScanHigh() then [Tuned(ch, p.0, p.1)] else [])
    {
      var ch := CurrentChannel();
      if ch.rxFreq < ScanLow() || ch.rxFreq > ScanHigh() {
        var offset := ch.txFreq - ch.rxFreq;
        var rx := ScanLow();
        settings.vfo := settings.vfo[Vfo() := ch.(rxFreq := rx, txFreq := rx + offset)];
        log := log + [Tuned(ch, rx, rx + offset)];
      } else {
        assert settings.vfo == settings.vfo[Vfo() := ch];
      }
    }

    /**
     * vfoSweepUpdateSamples (the buffer part): pan by offset times the
     * shift distance of the current step size, then rescale, placing the
     * write index at the first empty column; while the sweep runs, retune
     * to that column and restart the sweep step.
     */
    method UpdateSamples(offset: int, rescale: int)
      requires Valid() && -1 <= offset <= 1
      modifies samples, `sweepSampleIndex, `scanSweepCurrentFreq, `timeout, `log
      ensures Valid()
      ensures var shift := offset * SHIFT_DISTANCE[sweep.stepIndex];
        samples[..] == SamplesAfter(old(samples[..]), shift, rescale) &&
        sweepSampleIndex == SampleIndexAfter(old(sweepSampleIndex), shift, rescale)
      ensures SweepRetuned(old(scanSweepCurrentFreq), old(timeout))
      ensures log == old(log) + SweepRetuneCommands()
    {
      var shift := offset * SHIFT_DISTANCE[sweep.stepIndex];
      ghost var s0 := samples[..];
      var idx := Pan(samples, sweepSampleIndex, shift);
      ghost var s1 := samples[..];
      idx := Rescale(samples, idx, rescale);
      assert samples[..] == Rescaled(s1, rescale) == SamplesAfter(s0, shift, rescale);
      sweepSampleIndex := idx;
      SweepRetune();
    }

    /** The retune at the end of vfoSweepUpdateSamples, while the sweep runs. */
    method SweepRetune()
      requires Valid()
      modifies `scanSweepCurrentFreq, `timeout, `log
      ensures Valid()
      ensures SweepRetuned(old(scanSweepCurrentFreq), old(timeout))
      ensures log == old(log) + SweepRetuneCommands()
    {
      if state == Scanning {
        var ch := CurrentChannel();
        scanSweepCurrentFreq := SweepFrequency(ch.rxFreq, sweepRangeSteps[sweep.stepIndex], sweepSampleIndex);
        log := log + [Tuned(ch, scanSweepCurrentFreq, ch.txFreq)];
        timeout := VFO_SWEEP_STEP_TIME;
      }
    }

    /** A sweep step: the centre moves by increment and the graph pans one shift with it. */
    method StepAndPan(increment: int, offset: int)
      requires Valid() && -1 <= offset <= 1
      modifies samples, `sweepSampleIndex, `scanSweepCurrentFreq, `timeout, settings`vfo, `log
      ensures Valid()
      ensures settings.vfo == old(VfosAfterStep(increment))
      ensures var shift := offset * SHIFT_DISTANCE[sweep.stepIndex];
        samples[..] == SamplesAfter(old(samples[..]), shift, 0) &&
        sweepSampleIndex == SampleIndexAfter(old(sweepSampleIndex), shift, 0)
      ensures SweepRetuned(old(scanSweepCurrentFreq), old(timeout))
      ensures log == old(log) + old(CommandsAfterStep(increment)) + SweepRetuneCommands()
    {
      StepFrequency(increment);
      UpdateSamples(offset, 0);
    }

    /**
     * The state after a step by an increment whose outcome was vfos and
     * cmds: the VFO records are vfos and cmds was sent; a sweep step also
     * panned the graph by shift and retuned the radio, any other step
     * left the graph alone.
     */
    ghost predicate StepApplied(vfos: seq<Channel>, cmds: seq<Command>, sweeping: bool, shift: int,
                                s0: seq<Byte>, idx0: int, freq0: int, timeout0: int, log0: seq<Command>)
      reads settings`nv, settings`vfo, settings`codeplugVfo, settings`userBands, settings`storedBlob
      reads `screenMode, `nuisanceDeleteIndex, `timeout, `dwellTime, `stepTimeMs, `direction, `sweep, `sweepSampleIndex,
        `sweepSampleIndexIncrement, `toneCursor, `state, `scanSweepCurrentFreq, `log, samples
      requires Valid() && (sweeping ==> IsBuffer(s0) && -8 <= shift <= 8)
    {
      var ok := settings.vfo == vfos &&
        (sweeping ==>
          samples[..] == SamplesAfter(s0, shift, 0) && sweepSampleIndex == SampleIndexAfter(idx0, shift, 0) &&
          SweepRetuned(freq0, timeout0) && log == log0 + cmds + SweepRetuneCommands()) &&
        (!sweeping ==>
          log == log0 + cmds && samples[..] == s0 && sweepSampleIndex == idx0 && scanSweepCurrentFreq == freq0);
      ok
    }

    /**
     * The step of handleUpKey: by the sweep step while sweeping, when the
     * graph also pans one shift to the left; by the VFO step in the scan
     * direction while scanning, when the scan resumes with a fresh
     * timeout; by the VFO step otherwise.
     */
    method StepUp()
      requires Valid()
      modifies `timeout, `state, samples, `sweepSampleIndex, `scanSweepCurrentFreq, settings`vfo, `log
      ensures Valid()
      ensures StepApplied(old(VfosAfterStep(UpIncrement())), old(CommandsAfterStep(UpIncrement())),
        old(active && Mode() == ScreenSweep), old(SHIFT_DISTANCE[sweep.stepIndex]) as int,
        old(samples[..]), old(sweepSampleIndex), old(scanSweepCurrentFreq), old(timeout), old(log))
      ensures old(active && Mode() == ScreenSweep) ==> state == old(state)
      ensures old(active && Mode() != ScreenSweep) ==> timeout == SCAN_RESUME_TIME && state == Scanning
      ensures !old(active) ==> timeout == old(timeout) && state == old(state)
    {
      if active && Mode() == ScreenSweep {
        StepAndPan(SWEEP_FREQ_STEP[sweep.stepIndex], 1);
      } else {
        if active {
          timeout := SCAN_RESUME_TIME;
          state := Scanning;
        }
        StepFrequency(UpIncrement());
      }
    }

    /**
     * handleUpKey. With SK2 held it selects the rx frequency, except while
     * a scan, dual watch or sweep owns the VFO; otherwise it steps up
     * (StepUp). The VFOs are marked dirty in every case.
     */
    method HandleUpKey(sk2Down: bool)
      requires Valid()
      modifies `txSelected, `timeout, `state, samples, `sweepSampleIndex, `scanSweepCurrentFreq,
        settings`vfo, settings`vfoDirty, `log
      ensures Valid() && settings.vfoDirty
      ensures sk2Down ==>
        txSelected == (if old(Mode()) in {ScreenScan, ScreenDualScan, ScreenSweep} then old(txSelected) else false) &&
        unchanged(`timeout, `state, `sweepSampleIndex, `scanSweepCurrentFreq, settings`vfo, `log) &&
        samples[..] == old(samples[..])
      ensures !sk2Down ==> (txSelected == old(txSelected) &&
        StepApplied(old(VfosAfterStep(UpIncrement())), old(CommandsAfterStep(UpIncrement())),
          old(active && Mode() == ScreenSweep), old(SHIFT_DISTANCE[sweep.stepIndex]) as int,
          old(samples[..]), old(sweepSampleIndex), old(scanSweepCurrentFreq), old(timeout), old(log)))
      ensures !sk2Down && old(active && Mode() == ScreenSweep) ==> state == old(state)
      ensures !sk2Down && old(active && Mode() != ScreenSweep) ==> timeout == SCAN_RESUME_TIME && state == Scanning
      ensures !sk2Down && !old(active) ==> timeout == old(timeout) && state == old(state)
    {
      if sk2Down {
        var m := Mode();
        if m != ScreenScan && m != ScreenDualScan && m != ScreenSweep {
          txSelected := false;
        }
      } else {
        StepUp();
      }
      settings.vfoDirty := true;
    }

    /**
     * The step of handleDownKey: down by the sweep step in sweep mode or by
     * the VFO step, with a running sweep's graph panned one shift to the
     * right. The scan timer is not reset.
     */
    method StepDown()
      requires Valid()
      modifies samples, `sweepSampleIndex, `scanSweepCurrentFreq, `timeout, settings`vfo, `log
      ensures Valid()
      ensures StepApplied(old(VfosAfterStep(DownIncrement())), old(CommandsAfterStep(DownIncrement())),
        old(active && Mode() == ScreenSweep), -(old(SHIFT_DISTANCE[sweep.stepIndex]) as int),
        old(samples[..]), old(sweepSampleIndex), old(scanSweepCurrentFreq), old(timeout), old(log))
      ensures !old(active && Mode() == ScreenSweep) ==> timeout == old(timeout)
    {
      if active && Mode() == ScreenSweep {
        StepAndPan(DownIncrement(), -1);
      } else {
        StepFrequency(DownIncrement());
      }
    }

    /**
     * handleDownKey. With SK2 held it selects the tx frequency, only in the
     * normal VFO mode; otherwise it steps down (StepDown) and marks the
     * VFOs dirty.
     */
    method HandleDownKey(sk2Down: bool)
      requires Valid()
      modifies `txSelected, `timeout, samples, `sweepSampleIndex, `scanSweepCurrentFreq,
        settings`vfo, settings`vfoDirty, `log
      ensures Valid()
      ensures sk2Down ==>
        txSelected == (if old(Mode()) == ScreenNormal then true else old(txSelected)) &&
        unchanged(`timeout, `sweepSampleIndex, `scanSweepCurrentFreq, settings`vfo, settings`vfoDirty, `log) &&
        samples[..] == old(samples[..])
      ensures !sk2Down ==> (txSelected == old(txSelected) && settings.vfoDirty &&
        StepApplied(old(VfosAfterStep(DownIncrement())), old(CommandsAfterStep(DownIncrement())),
          old(active && Mode() == ScreenSweep), -(old(SHIFT_DISTANCE[sweep.stepIndex]) as int),
          old(samples[..]), old(sweepSampleIndex), old(scanSweepCurrentFreq), old(timeout), old(log)))
      ensures !sk2Down && !old(active && Mode() == ScreenSweep) ==> timeout == old(timeout)
    {
      if sk2Down {
        if Mode() == ScreenNormal {
          txSelected := true;
        }
      } else {
        StepDown();
        settings.vfoDirty := true;
      }
    }

    /** What setSweepIncDecSetting decides from the current settings. */
    function SweepAdjustFor(kind: SweepSetting, increment: bool): SweepAdjust
      reads `sweep, settings`nv
      requires SweepSettingsValid() && settings.NvValid()
    {
      Adjusted(kind, increment, sweep, settings.nv.vfoSweepSettings)
    }

    /**
     * The settings half of setSweepIncDecSetting: the runtime settings
     * take the adjusted values and the stored word is rewritten (marking
     * the settings dirty even when nothing changed). The immediate save
     * that follows does nothing on the MD2017 (SettingsStore.SaveIfNeeded).
     */
    method StoreSweepSetting(kind: SweepSetting, increment: bool) returns (a: SweepAdjust)
      requires Valid()
      modifies `sweep, settings`nv, settings`dirty
      ensures Valid() && settings.dirty
      ensures a == old(SweepAdjustFor(kind, increment))
      ensures sweep == a.settings
      ensures settings.nv == old(settings.nv).(vfoSweepSettings := a.word)
    {
      a := SweepAdjustFor(kind, increment);
      sweep := a.settings;
      settings.Set(VfoSweepSettings, a.word);
    }

    /**
     * setSweepIncDecSetting: step size, noise floor or gain one notch up or
     * down within its range, stored in the settings word; when anything
     * changed the graph is redrawn, rescaled when the step size changed.
     */
    method SetSweepIncDecSetting(kind: SweepSetting, increment: bool)
      requires Valid()
      modifies `sweep, settings`nv, settings`dirty, samples, `sweepSampleIndex, `scanSweepCurrentFreq, `timeout, `log
      ensures Valid() && settings.dirty
      ensures var a := old(SweepAdjustFor(kind, increment));
        sweep == a.settings && settings.nv == old(settings.nv).(vfoSweepSettings := a.word) &&
        (a.apply ==>
          samples[..] == SamplesAfter(old(samples[..]), 0, a.rescale) &&
          sweepSampleIndex == SampleIndexAfter(old(sweepSampleIndex), 0, a.rescale) &&
          SweepRetuned(old(scanSweepCurrentFreq), old(timeout)) &&
          log == old(log) + SweepRetuneCommands()) &&
        (!a.apply ==>
          samples[..] == old(samples[..]) &&
          unchanged(`sweepSampleIndex, `scanSweepCurrentFreq, `timeout, `log))
    {
      ghost var s0, log0 := samples[..], log;
      var a := StoreSweepSetting(kind, increment);
      assert samples[..] == s0 && log == log0;
      if a.apply {
        UpdateSamples(0, a.rescale);
      }
    }

    /** The graph cleared: every column empty. */
    method ClearGraph()
      requires Valid()
      modifies samples
      ensures Valid() && samples[..] == Zeros(N)
    {
      ClearRange(samples, 0, N);
      assert samples[..] == Zeros(N);
    }

    /** The sweep becomes the running scan of the current VFO, with the settings unpacked from the stored word. */
    method BeginSweep()
      requires Valid() && StepIndexOf(settings.nv.vfoSweepSettings) <= MAX_STEP_INDEX
      modifies `active, `state, `scanType, `sweep, `screenMode
      ensures Valid()
      ensures active && state == Scanning && scanType == NormalStep
      ensures sweep == Unpacked(settings.nv.vfoSweepSettings)
      ensures screenMode == old(screenMode)[Vfo() := ScreenSweep]
    {
      active := true;
      state := Scanning;
      scanType := NormalStep;
      sweep := Unpacked(settings.nv.vfoSweepSettings);
      screenMode := screenMode[Vfo() := ScreenSweep];
    }

    /**
     * sweepScanInit: the sweep becomes the running scan of the current
     * VFO with the settings unpacked from the stored word, the graph is
     * cleared and the radio is tuned to the write column. The step-index
     * field of a word holds up to 7, but the sweep tables have seven
     * entries, so the word must select one of them.
     */
    method SweepScanInit()
      requires Valid() && StepIndexOf(settings.nv.vfoSweepSettings) <= MAX_STEP_INDEX
      modifies `active, `state, `scanType, `sweep, `screenMode, samples, `sweepSampleIndex, `scanSweepCurrentFreq,
        `timeout, `log
      ensures Valid()
      ensures active && state == Scanning && scanType == NormalStep && sweepSampleIndex == old(sweepSampleIndex)
      ensures sweep == Unpacked(old(settings.nv.vfoSweepSettings))
      ensures screenMode == old(screenMode)[Vfo() := ScreenSweep]
      ensures samples[..] == Zeros(N)
      ensures scanSweepCurrentFreq == SweepFrequency(CurrentChannel().rxFreq, sweepRangeSteps[sweep.stepIndex], sweepSampleIndex)
      ensures timeout == VFO_SWEEP_STEP_TIME
      ensures log == old(log) + [Tuned(CurrentChannel(), scanSweepCurrentFreq, CurrentChannel().txFreq)]
      ensures SweepScanning(true, false) && SweepScanning(true, true)
    {
      ClearGraph();
      BeginSweep();
      UpdateSamples(0, 0);
    }

    /**
     * sweepScanStep, while the sweep is scanning and its step timer has
     * expired: a fresh step starts, the RSSI just read is stored in the
     * write column and the index moves on, or at the right-hand end the
     * sweep restarts at column 0 with the normal increment; the radio is
     * then tuned to the new column's frequency.
     */
    method SweepScanStep(expired: bool, rssi: Byte)
      requires Valid()
      modifies samples, `sweepSampleIndex, `sweepSampleIndexIncrement, `scanSweepCurrentFreq, `timeout, `log
      ensures Valid()
      ensures old(state) != Scanning || !expired ==>
        samples[..] == old(samples[..]) &&
        unchanged(`sweepSampleIndex, `sweepSampleIndexIncrement, `scanSweepCurrentFreq, `timeout, `log)
      ensures old(state) == Scanning && expired ==>
        SweepCursor(sweepSampleIndex, sweepSampleIndexIncrement) ==
          SweepTick(SweepCursor(old(sweepSampleIndex), old(sweepSampleIndexIncrement))) &&
        samples[..] == (if old(sweepSampleIndex) < N then old(samples[..])[old(sweepSampleIndex) := rssi] else old(samples[..])) &&
        timeout == VFO_SWEEP_STEP_TIME &&
        scanSweepCurrentFreq == SweepFrequency(CurrentChannel().rxFreq, sweepRangeSteps[sweep.stepIndex], sweepSampleIndex) &&
        log == old(log) + [Tuned(CurrentChannel(), scanSweepCurrentFreq, CurrentChannel().txFreq)]
    {
      if state != Scanning || !expired {
        return;
      }
      timeout := VFO_SWEEP_STEP_TIME;
      if sweepSampleIndex < N {
        samples[sweepSampleIndex] := rssi;
        sweepSampleIndex := sweepSampleIndex + sweepSampleIndexIncrement;
      } else {
        sweepSampleIndex := 0;
        sweepSampleIndexIncrement := 1;
      }
      var ch := CurrentChannel();
      scanSweepCurrentFreq := SweepFrequency(ch.rxFreq, sweepRangeSteps[sweep.stepIndex], sweepSampleIndex);
      log := log + [Tuned(ch, scanSweepCurrentFreq, ch.txFreq)];
    }

    // -------------------------------------------------------------------
    // The nuisance ring and the scan keys

    /** clearNuisance: every slot free, the write index back at the start. */
    method ClearNuisance()
      requires Valid()
      modifies nuisanceDelete, `nuisanceDeleteIndex
      ensures Valid()
      ensures forall i :: 0 <= i < nuisanceDelete.Length ==> nuisanceDelete[i] == -1
      ensures nuisanceDeleteIndex == 0
      ensures RingFilled(nuisanceDelete[..], nuisanceDeleteIndex)
      ensures forall f :: !Listed(nuisanceDelete[..], f)
    {
      var i := 0;
      while i < MAX_ZONE_SCAN_NUISANCE_CHANNELS
        invariant 0 <= i <= MAX_ZONE_SCAN_NUISANCE_CHANNELS
        invariant forall j :: 0 <= j < i ==> nuisanceDelete[j] == -1
      {
        nuisanceDelete[i] := -1;
        i := i + 1;
      }
      nuisanceDeleteIndex := 0;
      forall f
        ensures !Listed(nuisanceDelete[..], f)
      {
        ClearedRing(nuisanceDelete[..], f);
      }
    }

    /**
     * The nuisance search at the end of a frequency-scan step: the slots
     * are searched in order up to the first free one.
     */
    method IsNuisance(f: int) returns (found: bool)
      requires Valid()
      ensures found == Listed(nuisanceDelete[..], f)
    {
      var i := 0;
      while i < MAX_ZONE_SCAN_NUISANCE_CHANNELS
        invariant 0 <= i <= MAX_ZONE_SCAN_NUISANCE_CHANNELS
        invariant forall j :: 0 <= j < i ==> nuisanceDelete[j] != -1 && nuisanceDelete[j] != f
      {
        if nuisanceDelete[i] == -1 {
          NotListedPastFree(nuisanceDelete[..], f, i);
          return false;
        }
        if nuisanceDelete[i] == f {
          return true;
        }
        i := i + 1;
      }
      NotListedPastFree(nuisanceDelete[..], f, MAX_ZONE_SCAN_NUISANCE_CHANNELS);
      return false;
    }

    /**
     * The right key while PAUSED: the current frequency goes into the
     * ring at the write index (duplicates are not suppressed), the index
     * moves on modulo the ring size, and the scan resumes at once.
     */
    method MarkNuisance()
      requires Valid()
      modifies nuisanceDelete, `nuisanceDeleteIndex, `timeout, `state
      ensures Valid()
      ensures nuisanceDelete[..] == old(nuisanceDelete[..])[old(nuisanceDeleteIndex) := CurrentChannel().rxFreq]
      ensures nuisanceDeleteIndex == NextRingIndex(old(nuisanceDeleteIndex))
      ensures timeout == SCAN_SKIP_CHANNEL_INTERVAL && state == Scanning
      ensures RingFilled(old(nuisanceDelete[..]), old(nuisanceDeleteIndex)) && CurrentChannel().rxFreq != -1 ==>
        RingFilled(nuisanceDelete[..], nuisanceDeleteIndex) && Listed(nuisanceDelete[..], CurrentChannel().rxFreq)
    {
      ghost var l := nuisanceDelete[..];
      ghost var idx := nuisanceDeleteIndex;
      var f := CurrentChannel().rxFreq;
      nuisanceDelete[nuisanceDeleteIndex] := f;
      nuisanceDeleteIndex := NextRingIndex(nuisanceDeleteIndex);
      timeout := SCAN_SKIP_CHANNEL_INTERVAL;
      state := Scanning;
      assert nuisanceDelete[..] == l[idx := f];
      if RingFilled(l, idx) && f != -1 {
        MarkIsListed(l, idx, f);
      }
    }

    /** The left key: the scan direction flips. */
    method ReverseDirection()
      requires Valid()
      modifies `direction
      ensures Valid() && direction == -old(direction)
    {
      direction := direction * -1;
    }

    // -------------------------------------------------------------------
    // Stopping a scan

    /** The receive tone after a tone scan stops: the one saved when it started, if any. */
    function RestoredTone(): int
      reads settings`nv, settings`vfo, `prevCssTone
      requires settings.NvValid() && settings.VfosValid()
    {
      if prevCssTone.Some? then prevCssTone.value else CurrentChannel().rxTone
    }

    /** What uiVFOModeStopScanning sends to end a tone scan. */
    ghost function ToneRestoreCommands(): seq<Command>
      reads settings`nv, settings`vfo, `prevCssTone, `toneActive
      requires settings.NvValid() && settings.VfosValid()
    {
      if toneActive then [SetRxCss(RestoredTone()), RestoreAnalogFilter] else []
    }

    /** What uiVFOModeStopScanning sends to end dual watch (power saving back) or a sweep (retune to the VFO). */
    ghost function ScanEndCommands(): seq<Command>
      reads settings`nv, settings`vfo, `screenMode
      requires settings.NvValid() && settings.VfosValid() && ModesValid()
    {
      var ch := CurrentChannel();
      if Mode() == ScreenDualScan then [SetPowerSavingLevel(settings.nv.ecoLevel)]
      else if Mode() == ScreenSweep then [Tuned(ch, ch.rxFreq, ch.txFreq), ClearColorCodeSync]
      else []
    }

    /** The screen modes after a stop: both normal after dual watch, the VFO normal after a sweep, else as they were. */
    ghost function ScreenModesAfterStop(): seq<ScreenMode>
      reads settings`nv, `screenMode
      requires settings.NvValid() && ModesValid()
    {
      if Mode() == ScreenDualScan then [ScreenNormal, ScreenNormal]
      else if Mode() == ScreenSweep then screenMode[Vfo() := ScreenNormal]
      else screenMode
    }

    /** The tone-scan part of uiVFOModeStopScanning: the saved tone comes back and the filter is restored. */
    method EndToneScan()
      requires Valid()
      modifies settings`vfo, `prevCssTone, `toneActive, `log
      ensures Valid() && !toneActive
      ensures old(toneActive) ==>
        settings.vfo == old(settings.vfo)[Vfo() := old(CurrentChannel()).(rxTone := old(RestoredTone()))] &&
        prevCssTone == None
      ensures !old(toneActive) ==> settings.vfo == old(settings.vfo) && prevCssTone == old(prevCssTone)
      ensures log == old(log) + old(ToneRestoreCommands())
    {
      if toneActive {
        var ch := CurrentChannel();
        var tone := RestoredTone();
        if prevCssTone.Some? {
          prevCssTone := None;
        }
        settings.vfo := settings.vfo[Vfo() := ch.(rxTone := tone)];
        log := log + [SetRxCss(tone)];
        toneActive := false;
        log := log + [RestoreAnalogFilter];
      }
    }

    /**
     * The mode part of uiVFOModeStopScanning: dual watch ends on the VFO
     * it stopped on, which becomes the stored current VFO, with power
     * saving back at its setting; a sweep ends retuned to the VFO.
     */
    method EndScanMode()
      requires Valid()
      modifies `active, `screenMode, settings`nv, settings`dirty, `log
      ensures Valid() && !active && settings.nv == old(settings.nv)
      ensures screenMode == old(ScreenModesAfterStop())
      ensures log == old(log) + old(ScanEndCommands())
      ensures settings.dirty == (old(settings.dirty) || old(Mode()) == ScreenDualScan)
    {
      active := false;
      var m := Mode();
      if m == ScreenDualScan {
        EndDualWatch();
      } else if m == ScreenSweep {
        EndSweep();
      }
    }

    /** Dual watch ends: both VFOs back to normal, power saving restored, the current VFO stored. */
    method EndDualWatch()
      requires Valid() && Mode() == ScreenDualScan
      modifies `screenMode, settings`nv, settings`dirty, `log
      ensures Valid() && settings.nv == old(settings.nv) && settings.dirty
      ensures screenMode == [ScreenNormal, ScreenNormal]
      ensures log == old(log) + [SetPowerSavingLevel(old(settings.nv.ecoLevel))]
    {
      var v := Vfo();
      screenMode := [ScreenNormal, ScreenNormal];
      log := log + [SetPowerSavingLevel(settings.nv.ecoLevel)];
      settings.Set(CurrentVfoNumber, v);
    }

    /** A sweep ends: the VFO goes back to normal and is retuned to its own frequencies. */
    method EndSweep()
      requires Valid() && Mode() == ScreenSweep
      modifies `screenMode, `log
      ensures Valid()
      ensures screenMode == old(screenMode)[Vfo() := ScreenNormal]
      ensures log == old(log) + [Tuned(CurrentChannel(), CurrentChannel().rxFreq, CurrentChannel().txFreq), ClearColorCodeSync]
    {
      var ch := CurrentChannel();
      var cmds := [Tuned(ch, ch.rxFreq, ch.txFreq), ClearColorCodeSync];
      screenMode := screenMode[Vfo() := ScreenNormal];
      log := log + cmds;
    }

    /**
     * uiVFOModeStopScanning: ends a tone scan (EndToneScan), then the
     * frequency scan, dual watch or sweep (EndScanMode).
     */
    method StopScanning()
      requires Valid()
      modifies settings`vfo, `prevCssTone, `toneActive, `active, `screenMode, settings`nv, settings`dirty, `log
      ensures Valid() && !active && !toneActive && settings.nv == old(settings.nv)
      ensures old(toneActive) ==>
        settings.vfo == old(settings.vfo)[Vfo() := old(CurrentChannel()).(rxTone := old(RestoredTone()))] &&
        prevCssTone == None
      ensures !old(toneActive) ==> settings.vfo == old(settings.vfo) && prevCssTone == old(prevCssTone)
      ensures screenMode == old(ScreenModesAfterStop())
      ensures log == old(log) + old(ToneRestoreCommands()) + old(ScanEndCommands())
      ensures settings.dirty == (old(settings.dirty) || old(Mode()) == ScreenDualScan)
      ensures !IsScanning()
    {
      ghost var end := ScanEndCommands();
      EndToneScan();
      assert ScanEndCommands() == end;
      EndScanMode();
    }

    /**
     * The scan barrier of handleEvent, for a key event while a scan, dual
     * watch or sweep is active: the action ScanKeyAction decides is
     * carried out; a key passed on leaves the scan as it is.
     */
    method HandleScanKey(k: Key, sk2Down: bool) returns (action: KeyAction)
      requires Valid() && active
      modifies nuisanceDelete, `nuisanceDeleteIndex, `timeout, `state, `direction, settings`vfo, `prevCssTone,
        `toneActive, `active, `screenMode, settings`nv, settings`dirty, `log
      ensures Valid()
      ensures action == old(ScanKeyAction(k, sk2Down, state, Mode()))
      ensures action.MarkNuisance? ==>
        nuisanceDelete[..] == old(nuisanceDelete[..])[old(nuisanceDeleteIndex) := old(CurrentChannel()).rxFreq] &&
        nuisanceDeleteIndex == NextRingIndex(old(nuisanceDeleteIndex)) &&
        timeout == SCAN_SKIP_CHANNEL_INTERVAL && state == Scanning
      ensures action.ReverseDirection? ==> direction == -old(direction)
      ensures action.StopScanning? ==>
        !active && !toneActive && screenMode == old(ScreenModesAfterStop()) &&
        log == old(log) + old(ToneRestoreCommands()) + old(ScanEndCommands())
      ensures !action.StopScanning? ==> active && unchanged(`screenMode, `log, settings`vfo, settings`nv)
      ensures action.PassOn? ==>
        unchanged(`nuisanceDeleteIndex, `timeout, `state, `direction) && nuisanceDelete[..] == old(nuisanceDelete[..])
    {
      action := ScanKeyAction(k, sk2Down, state, Mode());
      match action
      case MarkNuisance => MarkNuisance();
      case ReverseDirection => ReverseDirection();
      case StopScanning => StopScanning();
      case PassOn =>
    }

    // -------------------------------------------------------------------
    // Starting a frequency scan

    /**
     * The scan window scanInit leaves: the stored limits, or, when either
     * is unset (0), the default window from the current rx, each end
     * stored as a uint32.
     */
    function InitialScanLimits(): (int, int)
      reads settings`nv, settings`vfo
      requires settings.NvValid() && settings.VfosValid()
    {
      if ScanLow() == 0 || ScanHigh() == 0 then
        var w := DefaultScanWindow(bands, CurrentChannel().rxFreq);
        (Wrap(UInt32, w.0), Wrap(UInt32, w.1))
      else (ScanLow(), ScanHigh())
    }

    /** The default scan window of scanInit written to the current VFO's limits. */
    method SetDefaultScanLimits()
      requires Valid()
      modifies settings`nv, settings`dirty
      ensures Valid() && settings.dirty
      ensures var w := DefaultScanWindow(bands, old(CurrentChannel()).rxFreq);
        settings.nv == old(settings.nv).(vfoScanLow := old(settings.nv.vfoScanLow)[Vfo() := Wrap(UInt32, w.0)],
                                         vfoScanHigh := old(settings.nv.vfoScanHigh)[Vfo() := Wrap(UInt32, w.1)])
    {
      var w := DefaultScanWindow(bands, CurrentChannel().rxFreq);
      settings.Set(VfoScanLow(Vfo()), w.0);
      settings.Set(VfoScanHigh(Vfo()), w.1);
    }

    /**
     * The timing part of scanInit: the step time from the settings, the
     * dwell for the radio's mode, a normal upward scan of the current VFO
     * on rx, restarting in SCANNING with a fresh timeout.
     */
    method BeginFrequencyScan(rfMode: RadioMode, dmrModeRx: DmrMode)
      requires Valid()
      modifies `stepTimeMs, `dwellTime, `scanType, `screenMode, `direction, `txSelected, `timeout, `state
      ensures Valid()
      ensures stepTimeMs == ScanStepTimeMs(settings.nv.scanStepTime)
      ensures dwellTime == ScanDwell(rfMode, stepTimeMs, dmrModeRx)
      ensures scanType == NormalStep && direction == 1 && !txSelected
      ensures screenMode == old(screenMode)[Vfo() := ScreenScan]
      ensures timeout == SCAN_RESUME_TIME && state == Scanning
    {
      var st := settings.GetScanStepTimeMilliseconds();
      var dwell := ScanDwell(rfMode, st, dmrModeRx);
      var v := Vfo();
      stepTimeMs := st;
      dwellTime := dwell;
      scanType := NormalStep;
      screenMode := screenMode[v := ScreenScan];
      direction := 1;
      txSelected := false;
      timeout := SCAN_RESUME_TIME;
      state := Scanning;
    }

    /**
     * scanInit, given the radio's mode and receive DMR mode: nothing while
     * dual watch owns the VFO; otherwise a frequency scan of the current
     * VFO is set up (BeginFrequencyScan), unset limits get the default
     * window, the screen refreshes on every step when the window is at
     * most one step wide (an unsigned difference of the stored limits),
     * and the nuisance ring is cleared.
     */
    method ScanInit(rfMode: RadioMode, dmrModeRx: DmrMode)
      requires Valid()
      modifies `stepTimeMs, `dwellTime, `scanType, `screenMode, `direction, `txSelected, `timeout, `state,
        settings`nv, settings`dirty, `refreshOnEveryStep, nuisanceDelete, `nuisanceDeleteIndex
      ensures Valid()
      ensures old(Mode()) == ScreenDualScan ==>
        unchanged(`stepTimeMs, `dwellTime, `scanType, `screenMode, `direction, `txSelected, `timeout, `state,
          settings`nv, settings`dirty, `refreshOnEveryStep, `nuisanceDeleteIndex) &&
        nuisanceDelete[..] == old(nuisanceDelete[..])
      ensures old(Mode()) != ScreenDualScan ==>
        stepTimeMs == ScanStepTimeMs(settings.nv.scanStepTime) && dwellTime == ScanDwell(rfMode, stepTimeMs, dmrModeRx) &&
        scanType == NormalStep && direction == 1 && !txSelected && timeout == SCAN_RESUME_TIME && state == Scanning &&
        screenMode == old(screenMode)[Vfo() := ScreenScan]
      ensures old(Mode()) != ScreenDualScan ==>
        (ScanLow(), ScanHigh()) == old(InitialScanLimits()) &&
        settings.nv == old(settings.nv).(vfoScanLow := old(settings.nv.vfoScanLow)[Vfo() := ScanLow()],
                                         vfoScanHigh := old(settings.nv.vfoScanHigh)[Vfo() := ScanHigh()]) &&
        settings.dirty == (old(settings.dirty) || old(ScanLow() == 0 || ScanHigh() == 0))
      ensures old(Mode()) != ScreenDualScan ==>
        refreshOnEveryStep == (Wrap(UInt32, ScanHigh() - ScanLow()) <= FreqStep()) &&
        nuisanceDeleteIndex == 0 && forall f :: !Listed(nuisanceDelete[..], f)
    {
      if Mode() == ScreenDualScan {
        return;
      }
      BeginFrequencyScan(rfMode, dmrModeRx);
      PrepareScanWindow();
      ClearNuisance();
    }

    /**
     * The window part of scanInit: unset limits get the default window,
     * and the screen refreshes on every step when the window is at most
     * one step wide.
     */
    method PrepareScanWindow()
      requires Valid()
      modifies settings`nv, settings`dirty, `refreshOnEveryStep
      ensures Valid()
      ensures (ScanLow(), ScanHigh()) == old(InitialScanLimits())
      ensures settings.nv == old(settings.nv).(vfoScanLow := old(settings.nv.vfoScanLow)[Vfo() := ScanLow()],
                                               vfoScanHigh := old(settings.nv.vfoScanHigh)[Vfo() := ScanHigh()])
      ensures settings.dirty == (old(settings.dirty) || old(ScanLow() == 0 || ScanHigh() == 0))
      ensures refreshOnEveryStep == (Wrap(UInt32, ScanHigh() - ScanLow()) <= FreqStep())
    {
      var limits := InitialScanLimits();
      // the stored limits are uint32_t, so their difference is unsigned
      refreshOnEveryStep := Wrap(UInt32, limits.1 - limits.0) <= FreqStep();
      if ScanLow() == 0 || ScanHigh() == 0 {
        SetDefaultScanLimits();
      }
    }

    /**
     * FUNC_START_SCANNING: scanInit, then the VFO is brought into its scan
     * window and the scan becomes active (also when dual watch already
     * owned the VFO and scanInit did nothing).
     */
    method StartScanning(rfMode: RadioMode, dmrModeRx: DmrMode)
      requires Valid()
      modifies `stepTimeMs, `dwellTime, `scanType, `screenMode, `direction, `txSelected, `timeout, `state,
        settings`nv, settings`dirty, `refreshOnEveryStep, nuisanceDelete, `nuisanceDeleteIndex, settings`vfo, `log, `active
      ensures Valid() && active
      ensures old(Mode()) != ScreenDualScan ==>
        Mode() == ScreenScan && (ScanLow(), ScanHigh()) == old(InitialScanLimits()) && state == Scanning && direction == 1
      ensures ScanLow() <= ScanHigh() ==> ScanLow() <= CurrentChannel().rxFreq <= ScanHigh()
      ensures CurrentChannel().txFreq - CurrentChannel().rxFreq == old(CurrentChannel().txFreq - CurrentChannel().rxFreq)
      ensures IsScanning()
    {
      ScanInit(rfMode, dmrModeRx);
      SetCurrentFreqToScanLimits();
      active := true;
    }
  
    // -------------------------------------------------------------------
    // One tick of a frequency scan or dual watch

    /** The phases of this scanning() tick, from the scan state, the settings and what the radio reports. */
    ghost function TickPhaseNow(rf: RfInputs): Phase
      reads settings`nv, `state, `timeout, `dwellTime, `stepTimeMs
      requires settings.NvValid()
    {
      TickPhase(state, timeout, dwellTime, stepTimeMs, settings.nv.dmrCcTsFilter.tsFilter, settings.nv.scanModePause,
        settings.nv.scanDelay, rf)
    }

    /** The current VFO lies in its scan window, whose ends are both in band. */
    ghost predicate WindowHolds()
      reads settings`nv, settings`vfo
      requires settings.NvValid() && settings.VfosValid()
    {
      InBand(bands, ScanLow()) && InBand(bands, ScanHigh()) && ScanLow() <= CurrentChannel().rxFreq <= ScanHigh()
    }

    /** Where the frequency scan goes when the dwell on a frequency expires. */
    function ScanMoveNow(): ScanMove
      reads settings`nv, settings`vfo, `direction
      requires ConstsValid() && settings.NvValid() && settings.VfosValid() && (direction == 1 || direction == -1)
    {
      NextScanMove(CurrentChannel().rxFreq, FreqStep(), ScanLow(), ScanHigh(), direction)
    }

    /** The VFO records after that move. */
    ghost function VfosAfterScanMove(): seq<Channel>
      reads settings`nv, settings`vfo, `direction, `txSelected, `txRxLock
      requires ConstsValid() && settings.NvValid() && settings.VfosValid() && (direction == 1 || direction == -1)
    {
      var ch := CurrentChannel();
      var r := AfterScanMove(bands, ch.rxFreq, ch.txFreq, txSelected, txRxLock, ScanMoveNow());
      settings.vfo[Vfo() := ch.(rxFreq := r.0, txFreq := r.1)]
    }

    /** What that move sends: a step's commands, or the jump to the other limit and a colour-code resync. */
    ghost function ScanMoveCommands(): seq<Command>
      reads settings`nv, settings`vfo, `direction, `txSelected, `txRxLock, `screenMode
      requires ConstsValid() && settings.NvValid() && settings.VfosValid() && ModesValid() && (direction == 1 || direction == -1)
    {
      var ch := CurrentChannel();
      match ScanMoveNow()
      case StepBy(i) => CommandsAfterStep(i)
      case JumpTo(f) => [Tuned(ch, f, f + (ch.txFreq - ch.rxFreq)), ClearColorCodeSync]
    }

    /** After a dual-watch switch away from the VFO of nv0 in vfo0, with log0 the log before it. */
    ghost predicate DualWatchSwitched(nv0: NvSettings, vfo0: seq<Channel>, log0: seq<Command>, dmrModeRx: DmrMode)
      reads settings`nv, settings`vfo, `log, `dwellTime, `stepTimeMs
      requires settings.NvValid() && settings.VfosValid() && |vfo0| == 2
    {
      var ok := settings.nv == nv0.(currentVfoNumber := 1 - nv0.currentVfoNumber) &&
        settings.vfo == vfo0[Vfo() := vfo0[Vfo()].(libreDmrPower := 0)] &&
        log == log0 + [Tuned(CurrentChannel(), CurrentChannel().rxFreq, CurrentChannel().txFreq), LoadChannel(Vfo())] &&
        dwellTime == ScanDwell(CurrentChannel().chMode, stepTimeMs, dmrModeRx);
      ok
    }

    /**
     * The dual-watch branch of an expired dwell: the other VFO becomes
     * current (without a settings write, hence not dirty), at master
     * power, tuned and loaded; the dwell follows its mode, with the
     * receive DMR mode the radio reports after the load.
     */
    method DualWatchSwitch(dmrModeRx: DmrMode)
      requires Valid()
      modifies settings`nv, settings`vfo, `log, `dwellTime
      ensures Valid()
      ensures DualWatchSwitched(old(settings.nv), old(settings.vfo), old(log), dmrModeRx)
    {
      var v := 1 - Vfo();
      var ch := settings.vfo[v].(libreDmrPower := 0);
      var dwell := ScanDwell(ch.chMode, stepTimeMs, dmrModeRx);
      log := log + [Tuned(ch, ch.rxFreq, ch.txFreq), LoadChannel(v)];
      dwellTime := dwell;
      settings.vfo := settings.vfo[v := ch];
      settings.nv := settings.nv.(currentVfoNumber := v);
    }

    /**
     * The frequency-scan branch of an expired dwell: a step that stays in
     * the window goes through handleUpKey (so the VFOs are marked dirty),
     * otherwise rx jumps to the other limit keeping the tx - rx offset.
     */
    method FrequencyScanStep()
      requires Valid() && active && Mode() != ScreenSweep && Mode() != ScreenDualScan
      modifies `txSelected, `timeout, `state, samples, `sweepSampleIndex, `scanSweepCurrentFreq,
        settings`vfo, settings`vfoDirty, `log
      ensures Valid()
      ensures settings.vfo == old(VfosAfterScanMove())
      ensures log == old(log) + old(ScanMoveCommands())
      ensures settings.vfoDirty == (old(settings.vfoDirty) || old(ScanMoveNow()).StepBy?)
      ensures txSelected == old(txSelected) && samples[..] == old(samples[..])
      ensures unchanged(`sweepSampleIndex, `scanSweepCurrentFreq)
    {
      var m := ScanMoveNow();
      match m
      case StepBy(i) =>
        assert i == UpIncrement();
        ghost var ch := CurrentChannel();
        assert VfosAfterStep(i) == VfosAfterScanMove() by {
          assert Stepped(ch, StepFor(i)) == ch.(rxFreq := AfterScanMove(bands, ch.rxFreq, ch.txFreq, txSelected, txRxLock, m).0,
                                               txFreq := AfterScanMove(bands, ch.rxFreq, ch.txFreq, txSelected, txRxLock, m).1);
        }
        HandleUpKey(false);
      case JumpTo(f) =>
        var ch := CurrentChannel();
        var tx := f + (ch.txFreq - ch.rxFreq);
        log := log + [Tuned(ch, f, tx), ClearColorCodeSync];
        settings.vfo := settings.vfo[Vfo() := ch.(rxFreq := f, txFreq := tx)];
    }

    /**
     * The end of an expired dwell: SCANNING again with a full dwell, or
     * the skip interval when the frequency scan landed on a frequency of
     * the nuisance ring.
     */
    method ResumeAfterStep()
      requires Valid()
      modifies `timeout, `state
      ensures Valid() && state == Scanning
      ensures timeout == (if Mode() == ScreenScan && Listed(nuisanceDelete[..], CurrentChannel().rxFreq)
        then SCAN_SKIP_CHANNEL_INTERVAL else dwellTime)
    {
      var skip := false;
      if Mode() == ScreenScan {
        skip := IsNuisance(CurrentChannel().rxFreq);
      }
      timeout := if skip then SCAN_SKIP_CHANNEL_INTERVAL else dwellTime;
      state := Scanning;
    }

    /**
     * scanning() once the countdown has run out: dual watch switches VFO
     * (DualWatchSwitch), a frequency scan moves on (FrequencyScanStep),
     * and the scan resumes (ResumeAfterStep). A frequency scan whose VFO
     * lies in an in-band window stays in it.
     */
    method ScanExpired(loadedDmrModeRx: DmrMode)
      requires Valid() && active && Mode() != ScreenSweep
      modifies settings`nv, settings`vfo, `log, `dwellTime, `txSelected, `timeout, `state, samples, `sweepSampleIndex,
        `scanSweepCurrentFreq, settings`vfoDirty
      ensures Valid() && state == Scanning
      ensures timeout == (if Mode() == ScreenScan && Listed(nuisanceDelete[..], CurrentChannel().rxFreq)
        then SCAN_SKIP_CHANNEL_INTERVAL else dwellTime)
      ensures old(Mode()) == ScreenDualScan ==> DualWatchSwitched(old(settings.nv), old(settings.vfo), old(log), loadedDmrModeRx)
      ensures old(Mode()) != ScreenDualScan ==>
        settings.nv == old(settings.nv) && dwellTime == old(dwellTime) &&
        settings.vfo == old(VfosAfterScanMove()) && log == old(log) + old(ScanMoveCommands())
      ensures old(Mode()) != ScreenDualScan && old(WindowHolds()) ==> WindowHolds()
    {
      if Mode() == ScreenDualScan {
        DualWatchSwitch(loadedDmrModeRx);
      } else {
        ghost var ch := CurrentChannel();
        ghost var low, high := ScanLow(), ScanHigh();
        if WindowHolds() {
          ScanStaysWithinLimits(bands, ch.rxFreq, ch.txFreq, txSelected, txRxLock, FreqStep(), low, high, direction);
        }
        FrequencyScanStep();
      }
      ResumeAfterStep();
    }

    /**
     * scanning(), one tick of an active frequency scan or dual watch: with
     * the receiver powered down the scan waits (a long dwell, expired
     * countdown); otherwise the carrier and audio phases may pause or end
     * the scan (TickPhase), and the countdown runs down or, run out, moves
     * the scan on (ScanExpired). A frequency scan inside an in-band window
     * stays inside it.
     */
    method ScanTick(rf: RfInputs, loadedDmrModeRx: DmrMode)
      requires Valid() && active && Mode() != ScreenSweep
      modifies settings`nv, settings`vfo, `log, `dwellTime, `txSelected, `timeout, `state, samples, `sweepSampleIndex,
        `scanSweepCurrentFreq, settings`vfoDirty, `prevCssTone, `toneActive, `active, `screenMode, settings`dirty
      ensures Valid()
      ensures !rf.rxOn ==>
        dwellTime == RX_OFF_DWELL_TIME && timeout == 0 && active && unchanged(`state, settings`vfo, settings`nv, `log, `screenMode)
      ensures rf.rxOn && old(TickPhaseNow(rf)).StopScan? ==>
        !active && !toneActive && screenMode == old(ScreenModesAfterStop()) &&
        log == old(log) + old(ToneRestoreCommands()) + old(ScanEndCommands())
      ensures rf.rxOn && old(TickPhaseNow(rf)).Phase? && old(TickPhaseNow(rf)).timeout > 0 ==>
        active && state == old(TickPhaseNow(rf)).state && timeout == old(TickPhaseNow(rf)).timeout - 1 &&
        unchanged(settings`vfo, settings`nv, `log, `screenMode)
      ensures rf.rxOn && old(TickPhaseNow(rf)).Phase? && old(TickPhaseNow(rf)).timeout <= 0 ==>
        active && state == Scanning && screenMode == old(screenMode) &&
        (old(Mode()) == ScreenDualScan ==> Vfo() == 1 - old(Vfo())) &&
        (old(Mode()) != ScreenDualScan ==> settings.vfo == old(VfosAfterScanMove()) && log == old(log) + old(ScanMoveCommands()))
      ensures active && old(Mode()) == ScreenScan && old(WindowHolds()) ==> WindowHolds()
    {
      if !rf.rxOn {
        dwellTime := RX_OFF_DWELL_TIME;
        timeout := 0;
        return;
      }
      var p := TickPhase(state, timeout, dwellTime, stepTimeMs, settings.nv.dmrCcTsFilter.tsFilter,
        settings.nv.scanModePause, settings.nv.scanDelay, rf);
      if p.StopScan? {
        StopScanning();
      } else if p.timeout > 0 {
        CountDown(p);
      } else {
        ScanExpired(loadedDmrModeRx);
      }
    }

    /** The countdown of a paused or scanning tick: the phase's state, one tick less to go. */
    method CountDown(p: Phase)
      requires Valid() && p.Phase? && p.timeout > 0
      modifies `state, `timeout
      ensures Valid() && state == p.state && timeout == p.timeout - 1
    {
      state := p.state;
      timeout := p.timeout - 1;
    }
  
    // -------------------------------------------------------------------
    // Dual watch and the scan limits

    /** The dual-watch timing: the settings' step time, and one fixed dwell that the timer starts from. */
    method SetDualWatchTiming()
      requires Valid()
      modifies `stepTimeMs, `dwellTime, `timeout, `refreshOnEveryStep
      ensures Valid()
      ensures stepTimeMs == ScanStepTimeMs(settings.nv.scanStepTime)
      ensures dwellTime == DUAL_WATCH_DWELL_TIME && timeout == DUAL_WATCH_DWELL_TIME && !refreshOnEveryStep
    {
      var st := settings.GetScanStepTimeMilliseconds();
      stepTimeMs := st;
      dwellTime := DUAL_WATCH_DWELL_TIME;
      timeout := dwellTime;
      refreshOnEveryStep := false;
    }

    /**
     * The dual-watch quick-menu entry, given the current power-saving
     * level: both VFOs go into dual watch with a 135 ms dwell not aligned
     * to the DMR timeslots, and power saving drops one level when above 1.
     */
    method StartDualWatch(powerSavingLevel: int)
      requires Valid()
      modifies `active, `stepTimeMs, `dwellTime, `timeout, `refreshOnEveryStep, `screenMode, `scanType, `log
      ensures Valid() && active
      ensures stepTimeMs == ScanStepTimeMs(settings.nv.scanStepTime)
      ensures dwellTime == DUAL_WATCH_DWELL_TIME && timeout == DUAL_WATCH_DWELL_TIME && !refreshOnEveryStep
      ensures screenMode == [ScreenDualScan, ScreenDualScan] && scanType == DualWatch
      ensures log == old(log) + (if powerSavingLevel > 1 then [SetPowerSavingLevel(powerSavingLevel - 1)] else [])
      ensures IsScanning() && (DualWatchIsScanning(true) <==> state == Scanning)
    {
      SetDualWatchTiming();
      active := true;
      screenMode := [ScreenDualScan, ScreenDualScan];
      scanType := DualWatch;
      if powerSavingLevel > 1 {
        log := log + [SetPowerSavingLevel(powerSavingLevel - 1)];
      }
    }

    /**
     * The twelve-digit scan-limit entry, given the two typed frequencies:
     * the limits are put in order and widened to one step
     * (EnteredScanLimits) and stored as uint32 only when both ends are in
     * band. The result says whether they were.
     */
    method EnterScanLimits(fLower: int, fUpper: int) returns (accepted: bool)
      requires Valid()
      modifies `refreshOnEveryStep, settings`nv, settings`dirty
      ensures Valid()
      ensures var e := old(EnteredScanLimits(bands, fLower, fUpper, FreqStep()));
        accepted == e.accepted && refreshOnEveryStep == e.refreshOnEveryStep &&
        (e.accepted ==>
          settings.dirty &&
          settings.nv == old(settings.nv).(vfoScanLow := old(settings.nv.vfoScanLow)[Vfo() := Wrap(UInt32, e.low)],
                                           vfoScanHigh := old(settings.nv.vfoScanHigh)[Vfo() := Wrap(UInt32, e.high)])) &&
        (!e.accepted ==> unchanged(settings`nv, settings`dirty))
      ensures var e := old(EnteredScanLimits(bands, fLower, fUpper, FreqStep()));
        accepted && InRange(UInt32, e.low) && InRange(UInt32, e.high) ==>
          InBand(bands, ScanLow()) && InBand(bands, ScanHigh()) && ScanHigh() - ScanLow() >= FreqStep()
    {
      var e := EnteredScanLimits(bands, fLower, fUpper, FreqStep());
      refreshOnEveryStep := e.refreshOnEveryStep;
      accepted := e.accepted;
      if e.accepted {
        settings.Set(VfoScanLow(Vfo()), e.low);
        settings.Set(VfoScanHigh(Vfo()), e.high);
      }
    }

    // -------------------------------------------------------------------
    // The tone scan

    /** While a tone scan runs, the VFO listens on the tone at the scan position. */
    ghost predicate ToneTracking()
      reads settings`nv, settings`vfo, `toneActive, `toneCursor
      requires ToneValid() && settings.NvValid() && settings.VfosValid()
    {
      toneActive ==> CurrentChannel().rxTone == ToneAt(tones, toneCursor)
    }

    /**
     * The tone-scan quick-menu entry, given the radio's mode: in analog
     * mode the filter is opened to CSS, the scan starts where
     * ToneScanStart says with the old receive tone saved, the receiver is
     * retuned to the first tone, and the scan runs upwards for that tone's
     * interval; in digital mode nothing happens.
     */
    method StartToneScan(rfMode: RadioMode)
      requires Valid()
      modifies `log, `toneCursor, `prevCssTone, settings`vfo, `toneActive, `refreshOnEveryStep, `timeout, `direction
      ensures Valid()
      ensures rfMode != Analog ==>
        unchanged(`log, `toneCursor, `prevCssTone, settings`vfo, `toneActive, `refreshOnEveryStep, `timeout, `direction)
      ensures rfMode == Analog ==>
        var ch := old(CurrentChannel());
        var c := ToneScanStart(tones, ch.rxTone, toneScanCss);
        toneCursor == c && prevCssTone == Some(ch.rxTone) &&
        settings.vfo == old(settings.vfo)[Vfo() := ch.(rxTone := ToneAt(tones, c))] &&
        log == old(log) + [SetAnalogFilterCss, DisableRfAudioAmp, RxAndTxOff, SetRxCss(ToneAt(tones, c)), RxOn] &&
        toneActive && !refreshOnEveryStep && timeout == ToneInterval(c) && direction == 1
      ensures rfMode == Analog ==> ToneTracking()
      ensures rfMode == Analog ==> IsScanning()
    {
      if rfMode != Analog {
        return;
      }
      var ch := CurrentChannel();
      var c := ToneScanStart(tones, ch.rxTone, toneScanCss);
      BeginToneScan(ch.rxTone);
      RetuneTone(c);
    }

    /**
     * The flags of a starting tone scan: the filter opened to CSS, the
     * receive tone saved, the RF audio off, the scan running upwards.
     */
    method BeginToneScan(savedTone: int)
      requires Valid()
      modifies `log, `prevCssTone, `toneActive, `refreshOnEveryStep, `direction
      ensures Valid()
      ensures log == old(log) + [SetAnalogFilterCss, DisableRfAudioAmp]
      ensures prevCssTone == Some(savedTone) && toneActive && !refreshOnEveryStep && direction == 1
    {
      log := log + [SetAnalogFilterCss, DisableRfAudioAmp];
      prevCssTone := Some(savedTone);
      toneActive := true;
      refreshOnEveryStep := false;
      direction := 1;
    }

    /**
     * The receiver retuned to the tone at scan position c: rx and tx off,
     * the tone set, rx on, and the tone's interval to listen.
     */
    method RetuneTone(c: Cursor)
      requires Valid() && CursorValid(tones, c)
      modifies `log, `toneCursor, `timeout, settings`vfo
      ensures Valid() && ToneTracking()
      ensures toneCursor == c && timeout == ToneInterval(c)
      ensures settings.vfo == old(settings.vfo)[Vfo() := old(CurrentChannel()).(rxTone := ToneAt(tones, c))]
      ensures log == old(log) + [RxAndTxOff, SetRxCss(ToneAt(tones, c)), RxOn]
    {
      var ch := CurrentChannel();
      var tone := ToneAt(tones, c);
      assert c.ty == Ctcss ==> c.index < SCAN_TONE_INTERVAL / 2;
      log := log + [RxAndTxOff, SetRxCss(tone), RxOn];
      toneCursor := c;
      timeout := ToneInterval(c);
      settings.vfo := settings.vfo[Vfo() := ch.(rxTone := tone)];
    }

    /**
     * toneScan, one tick of a running tone scan, given whether the RF
     * audio amplifier is on: audio means the tone was found, and it
     * becomes the transmit tone as well and the scan ends keeping it;
     * otherwise the countdown runs down, and when run out the scan moves
     * one tone in its direction (wrapping within the scanned family, or
     * through all families) and listens for that tone's interval.
     */
    method ToneScan(audioActive: bool)
      requires Valid() && toneActive
      modifies settings`vfo, `prevCssTone, `toneActive, `timeout, `toneCursor, `log
      ensures Valid()
      ensures audioActive ==>
        settings.vfo == old(settings.vfo)[Vfo() := old(CurrentChannel()).(txTone := old(CurrentChannel()).rxTone)] &&
        prevCssTone == None && !toneActive && unchanged(`timeout, `toneCursor, `log)
      ensures audioActive && old(ToneTracking()) ==> CurrentChannel().txTone == old(ToneAt(tones, toneCursor))
      ensures !audioActive && old(timeout) > 0 ==>
        timeout == old(timeout) - 1 && unchanged(settings`vfo, `prevCssTone, `toneActive, `toneCursor, `log)
      ensures !audioActive && old(timeout) <= 0 ==>
        var stay := toneScanCss != CssNone;
        var c := if old(direction) == 1 then Increment(tones, old(toneCursor), stay) else Decrement(tones, old(toneCursor), stay);
        toneCursor == c && settings.vfo == old(settings.vfo)[Vfo() := old(CurrentChannel()).(rxTone := ToneAt(tones, c))] &&
        log == old(log) + [RxAndTxOff, SetRxCss(ToneAt(tones, c)), RxOn] && timeout == ToneInterval(c) &&
        toneActive && unchanged(`prevCssTone)
      ensures old(ToneTracking()) ==> ToneTracking()
    {
      var ch := CurrentChannel();
      if audioActive {
        prevCssTone := None;
        toneActive := false;
        settings.vfo := settings.vfo[Vfo() := ch.(txTone := ch.rxTone)];
        return;
      }
      if timeout > 0 {
        timeout := timeout - 1;
        return;
      }
      var stay := toneScanCss != CssNone;
      var c := if direction == 1 then Increment(tones, toneCursor, stay) else Decrement(tones, toneCursor, stay);
      RetuneTone(c);
    }

    /**
     * The tone-scan barrier of handleEvent: the action ToneScanKeyAction
     * decides is carried out; reversing flips the direction, so the next
     * step retraces the last one (Tones.StepsAreInverse).
     */
    method HandleToneScanKey(keyEvent: bool, k: Key, sk2Down: bool, keyReleased: bool, orangeReleased: bool)
      returns (action: ToneKeyAction)
      requires Valid() && toneActive
      modifies `direction, settings`vfo, `prevCssTone, `toneActive, `active, `screenMode, settings`nv, settings`dirty, `log
      ensures Valid()
      ensures action == ToneScanKeyAction(keyEvent, k, sk2Down, keyReleased, orangeReleased)
      ensures action == ToneReverse ==>
        direction == -old(direction) && toneActive && unchanged(settings`vfo, `active, `screenMode, settings`nv, `log)
      ensures action == ToneStop ==>
        !active && !toneActive && prevCssTone == None && direction == old(direction) &&
        settings.vfo == old(settings.vfo)[Vfo() := old(CurrentChannel()).(rxTone := old(RestoredTone()))] &&
        log == old(log) + old(ToneRestoreCommands()) + old(ScanEndCommands())
      ensures action == ToneIgnore ==>
        unchanged(`direction, settings`vfo, `prevCssTone, `toneActive, `active, `screenMode, settings`nv, settings`dirty, `log)
    {
      action := ToneScanKeyAction(keyEvent, k, sk2Down, keyReleased, orangeReleased);
      match action
      case ToneReverse => ReverseDirection();
      case ToneStop => StopScanning();
      case ToneIgnore =>
    }

    // -------------------------------------------------------------------
    // The TG-list contact

    /** currentIndexInTRxGroupList of the current VFO. */
    function RxGroupIndex(): int
      reads settings`nv
      requires settings.NvValid()
    {
      settings.nv.currentIndexInTRxGroupList[SETTINGS_VFO_A_MODE + Vfo()]
    }

    /** uiVFOLoadContact: the index of the contact loaded for the current VFO and receive group g. */
    function LoadContact(g: RxGroup): int
      reads settings`nv, settings`vfo
      requires settings.NvValid() && settings.VfosValid() && RxGroupWellFormed(g)
    {
      ContactToLoad(g, RxGroupIndex(), CurrentChannel())
    }

    /**
     * checkAndFixIndexInRxGroup, for the loaded receive group g: an index
     * past a non-empty TG list is stored as 0; after it, a named non-empty
     * list always supplies the contact.
     */
    method CheckAndFixIndexInRxGroup(g: RxGroup)
      requires Valid()
      modifies settings`nv, settings`dirty
      ensures Valid()
      ensures RxGroupIndex() == FixedRxGroupIndex(g, old(RxGroupIndex()))
      ensures RxGroupIndex() == old(RxGroupIndex()) ==> unchanged(settings`nv, settings`dirty)
      ensures RxGroupIndex() != old(RxGroupIndex()) ==>
        settings.dirty &&
        settings.nv == old(settings.nv).(currentIndexInTRxGroupList :=
          old(settings.nv.currentIndexInTRxGroupList)[SETTINGS_VFO_A_MODE + Vfo() := 0])
      ensures RxGroupWellFormed(g) && g.hasName && g.numTGs > 0 && old(RxGroupIndex()) >= 0 ==>
        LoadContact(g) == g.contacts[RxGroupIndex()]
    {
      if g.numTGs > 0 && RxGroupIndex() > g.numTGs - 1 {
        settings.Set(IndexInRxGroupList(SETTINGS_VFO_A_MODE + Vfo()), 0);
      }
    }
  }
}
