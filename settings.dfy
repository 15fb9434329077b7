/**
 * The persistent-settings store (settings.c): the non-volatile settings
 * record, the two VFO channel records, the dirty flags, the typed
 * setters, option bits, save and load with recovery to defaults.
 *
 * Storage, the codeplug and the flash driver are modelled by fields of the
 * store that stand for what they hold or how they behave: storedBlob is
 * what settingsStorageRead returns (None when the read fails),
 * writeSucceeds what settingsStorageWrite reports, flashInitFailed the
 * flag spiFlashInitHasFailed, codeplugVfo the two VFO records in the
 * codeplug, deviceInfo what codeplugGetDeviceInfo returns.
 */
module Settings {
  import opened Wrappers
  import opened Bands
  import opened Radio
  import opened Codeplug
  import SweepWord

  // ---------------------------------------------------------------------
  // C integer widths of the typed helpers

  datatype Width = Int8 | UInt8 | Int16 | UInt16 | Int32 | UInt32

  function Modulus(w: Width): int
  {
    match w
    case Int8 => 0x100
    case UInt8 => 0x100
    case Int16 => 0x1_0000
    case UInt16 => 0x1_0000
    case Int32 => 0x1_0000_0000
    case UInt32 => 0x1_0000_0000
  }

  predicate Signed(w: Width)
  {
    w == Int8 || w == Int16 || w == Int32
  }

  /** The smallest value of the width. */
  function Low(w: Width): int
  {
    if Signed(w) then -(Modulus(w) / 2) else 0
  }

  predicate InRange(w: Width, x: int)
  {
    Low(w) <= x < Low(w) + Modulus(w)
  }

  /**
   * Storing an int into a C object of width w: reduction modulo 2^bits to
   * the width's range (two's complement for the signed widths).
   */
  function Wrap(w: Width, x: int): (r: int)
    ensures InRange(w, r)
    ensures InRange(w, x) ==> r == x
  {
    WrapInto(Low(w), Modulus(w), x)
  }

  /** x reduced modulo m into [lo, lo + m). */
  function WrapInto(lo: int, m: int, x: int): int
    requires m > 0
  {
    (x - lo) % m + lo
  }

  /** How many times the modulus is taken off x when it is wrapped. */
  function WrapCount(w: Width, x: int): int
  {
    (x - Low(w)) / Modulus(w)
  }

  /** Wrapping changes a value by a whole number of moduli. */
  lemma WrapCongruent(w: Width, x: int)
    ensures Wrap(w, x) == x - WrapCount(w, x) * Modulus(w)
  {
    assert x - Low(w) == WrapCount(w, x) * Modulus(w) + (x - Low(w)) % Modulus(w);
  }

  lemma MultipleInOpenRange(k: int, m: int)
    requires m > 0 && -m < k * m < m
    ensures k == 0
  {
  }

  /** Taking whole moduli off a remainder leaves it in place. */
  lemma ModOfShift(y: int, q: int, m: int)
    requires m > 0 && 0 <= y < m
    ensures (y - q * m) % m == y
  {
    var z := y - q * m;
    var p, r := z / m, z % m;
    assert z == p * m + r;
    assert y - r == (p + q) * m;
    MultipleInOpenRange(p + q, m);
  }

  /** Adding t modulo m and then taking t off again modulo m restores a remainder. */
  lemma ShiftCancel(y: int, t: int, m: int)
    requires m > 0 && 0 <= y < m
    ensures ((y + t) % m - t) % m == y
  {
    var q := (y + t) / m;
    assert (y + t) % m - t == y - q * m;
    ModOfShift(y, q, m);
  }

  /** Wrapping a + t and then taking t off again, wrapping once more, gives back a value already in range. */
  lemma WrapIntoCancels(lo: int, m: int, a: int, t: int)
    requires m > 0 && lo <= a < lo + m
    ensures WrapInto(lo, m, WrapInto(lo, m, a + t) - t) == a
  {
    ShiftCancel(a - lo, t, m);
    assert WrapInto(lo, m, a + t) - t - lo == (a - lo + t) % m - t;
  }

  /** *s = *s + v, with v converted to the type of *s. */
  function IncValue(w: Width, a: int, v: int): (r: int)
    ensures InRange(w, r)
    ensures InRange(w, v) && InRange(w, a + v) ==> r == a + v
  {
    Wrap(w, a + Wrap(w, v))
  }

  /** *s = *s - v, with v converted to the type of *s. */
  function DecValue(w: Width, a: int, v: int): (r: int)
    ensures InRange(w, r)
    ensures InRange(w, v) && InRange(w, a - v) ==> r == a - v
  {
    Wrap(w, a - Wrap(w, v))
  }

  /** Decrementing by v undoes incrementing by v, wrap-around included. */
  lemma {:induction false} IncThenDec(w: Width, a: int, v: int)
    requires InRange(w, a)
    ensures DecValue(w, IncValue(w, a, v), v) == a
  {
    WrapIntoCancels(Low(w), Modulus(w), a, Wrap(w, v));
  }

  /** Incrementing by v undoes decrementing by v, wrap-around included. */
  lemma {:induction false} DecThenInc(w: Width, a: int, v: int)
    requires InRange(w, a)
    ensures IncValue(w, DecValue(w, a, v), v) == a
  {
    WrapIntoCancels(Low(w), Modulus(w), a, -Wrap(w, v));
  }

  /** The largest unsigned value plus one wraps to zero. */
  lemma UnsignedIncWraps(w: Width)
    requires !Signed(w)
    ensures IncValue(w, Modulus(w) - 1, 1) == 0
  {
  }

  // ---------------------------------------------------------------------
  // The settings record

  /** nonVolatileSettings.scanModePause */
  datatype ScanModePause = ScanModeHold | ScanModePause | ScanModeStop

  /** nonVolatileSettings.dmrCcTsFilter: the colour-code and timeslot filter bits. */
  datatype CcTsFilter = CcTsFilter(ccFilter: bool, tsFilter: bool)

  /**
   * settingsStruct_t, reduced to the fields the core reads or writes.
   * The group-list indices are kept per mode (channel, VFO A, VFO B), the
   * scan limits per VFO.
   */
  datatype NvSettings = NvSettings(
    magicNumber: int,
    currentVfoNumber: int,
    currentIndexInTRxGroupList: seq<int>,
    vfoScanLow: seq<int>,
    vfoScanHigh: seq<int>,
    scanDelay: int,
    scanStepTime: int,
    scanModePause: ScanModePause,
    vfoSweepSettings: int,
    bitfieldOptions: bv32,
    overrideTG: int,
    ecoLevel: int,
    dmrCcTsFilter: CcTsFilter,
    initialMenuNumber: int)

  /** SETTINGS_CHANNEL_MODE, SETTINGS_VFO_A_MODE, SETTINGS_VFO_B_MODE */
  const SETTINGS_CHANNEL_MODE: nat := 0
  const SETTINGS_VFO_A_MODE: nat := 1

  /** The record's integer fields that the typed helpers write. */
  datatype Field =
    | CurrentVfoNumber
    | IndexInRxGroupList(mode: nat)
    | VfoScanLow(vfo: nat)
    | VfoScanHigh(vfo: nat)
    | ScanDelay
    | ScanStepTime
    | VfoSweepSettings
    | OverrideTG
    | EcoLevel
    | InitialMenuNumber

  predicate FieldExists(f: Field)
  {
    match f
    case IndexInRxGroupList(m) => m < 3
    case VfoScanLow(v) => v < 2
    case VfoScanHigh(v) => v < 2
    case _ => true
  }

  /** The C type of each field, hence the helper that writes it. */
  function FieldWidth(f: Field): Width
  {
    match f
    case CurrentVfoNumber => UInt8
    case IndexInRxGroupList(_) => Int16
    case VfoScanLow(_) => UInt32
    case VfoScanHigh(_) => UInt32
    case ScanDelay => UInt8
    case ScanStepTime => UInt8
    case VfoSweepSettings => UInt16
    case OverrideTG => UInt32
    case EcoLevel => UInt8
    case InitialMenuNumber => UInt8
  }

  /** The fixed layout of the record, each field within its C type, and a VFO number that selects a VFO. */
  ghost predicate WellFormed(s: NvSettings)
  {
    |s.currentIndexInTRxGroupList| == 3 && |s.vfoScanLow| == 2 && |s.vfoScanHigh| == 2 &&
    0 <= s.currentVfoNumber <= 1 &&
    (forall i :: 0 <= i < 3 ==> InRange(Int16, s.currentIndexInTRxGroupList[i])) &&
    (forall i :: 0 <= i < 2 ==> InRange(UInt32, s.vfoScanLow[i]) && InRange(UInt32, s.vfoScanHigh[i])) &&
    InRange(UInt8, s.scanDelay) && InRange(UInt8, s.scanStepTime) &&
    InRange(UInt16, s.vfoSweepSettings) && InRange(UInt32, s.overrideTG) && InRange(UInt8, s.ecoLevel) &&
    InRange(UInt8, s.initialMenuNumber)
  }

  function Get(s: NvSettings, f: Field): int
    requires WellFormed(s) && FieldExists(f)
  {
    match f
    case CurrentVfoNumber => s.currentVfoNumber
    case IndexInRxGroupList(m) => s.currentIndexInTRxGroupList[m]
    case VfoScanLow(v) => s.vfoScanLow[v]
    case VfoScanHigh(v) => s.vfoScanHigh[v]
    case ScanDelay => s.scanDelay
    case ScanStepTime => s.scanStepTime
    case VfoSweepSettings => s.vfoSweepSettings
    case OverrideTG => s.overrideTG
    case EcoLevel => s.ecoLevel
    case InitialMenuNumber => s.initialMenuNumber
  }

  /** A value the field can hold: one of its C type, and a VFO number of 0 or 1. */
  predicate Storable(f: Field, v: int)
  {
    InRange(FieldWidth(f), v) && (f == CurrentVfoNumber ==> 0 <= v <= 1)
  }

  /** The record with field f replaced by v and every other field kept. */
  function With(s: NvSettings, f: Field, v: int): (r: NvSettings)
    requires WellFormed(s) && FieldExists(f) && Storable(f, v)
    ensures WellFormed(r) && Get(r, f) == v
    ensures forall g :: FieldExists(g) && g != f ==> Get(r, g) == Get(s, g)
    ensures r.magicNumber == s.magicNumber && r.scanModePause == s.scanModePause
    ensures r.bitfieldOptions == s.bitfieldOptions && r.dmrCcTsFilter == s.dmrCcTsFilter
  {
    match f
    case CurrentVfoNumber => s.(currentVfoNumber := v)
    case IndexInRxGroupList(m) => s.(currentIndexInTRxGroupList := s.currentIndexInTRxGroupList[m := v])
    case VfoScanLow(i) => s.(vfoScanLow := s.vfoScanLow[i := v])
    case VfoScanHigh(i) => s.(vfoScanHigh := s.vfoScanHigh[i := v])
    case ScanDelay => s.(scanDelay := v)
    case ScanStepTime => s.(scanStepTime := v)
    case VfoSweepSettings => s.(vfoSweepSettings := v)
    case OverrideTG => s.(overrideTG := v)
    case EcoLevel => s.(ecoLevel := v)
    case InitialMenuNumber => s.(initialMenuNumber := v)
  }

  // ---------------------------------------------------------------------
  // Option bits

  /** settingsIsOptionBitSetFromSettings: every bit of the mask is set. */
  predicate OptionBitSet(options: bv32, bit: bv32)
  {
    (options & bit) == bit
  }

  /** The options after settingsSetOptionBit(bit, on). */
  function OptionsWith(options: bv32, bit: bv32, on: bool): bv32
  {
    if on then options | bit else options & !bit
  }

  lemma SetBitIsSet(options: bv32, bit: bv32)
    ensures OptionBitSet(OptionsWith(options, bit, true), bit)
    ensures OptionsWith(options, bit, true) & !bit == options & !bit
  {
  }

  lemma ClearedBitIsClear(options: bv32, bit: bv32)
    ensures OptionsWith(options, bit, false) & bit == 0
    ensures OptionsWith(options, bit, false) & !bit == options & !bit
  {
  }

  /**
   * Setting a mask makes every bit of it set, clearing it makes every bit
   * of it clear, and the bits outside the mask are kept either way.
   */
  lemma OptionsWithSpec(options: bv32, bit: bv32, on: bool)
    ensures on ==> OptionBitSet(OptionsWith(options, bit, on), bit)
    ensures !on ==> OptionsWith(options, bit, on) & bit == 0
    ensures OptionsWith(options, bit, on) & !bit == options & !bit
  {
    if on {
      SetBitIsSet(options, bit);
    } else {
      ClearedBitIsClear(options, bit);
    }
  }

  // ---------------------------------------------------------------------
  // Scan step time

  /** settingsGetScanStepTimeMilliseconds: one timeslot plus one timeslot per step-time unit. */
  function ScanStepTimeMs(scanStepTime: int): (r: int)
    requires InRange(UInt8, scanStepTime)
    ensures 30 <= r <= 30 * 256 && r % 30 == 0
    ensures r / 30 == scanStepTime + 1
  {
    30 + scanStepTime * 30
  }

  /** The scan uses DMR slow mode (step time over 150 ms) exactly from scanStepTime 5 upwards. */
  lemma SlowModeThreshold(scanStepTime: int)
    requires InRange(UInt8, scanStepTime)
    ensures ScanStepTimeMs(scanStepTime) > 150 <==> scanStepTime >= 5
  {
  }

  // ---------------------------------------------------------------------
  // Platform constants defined outside this model

  /**
   * Values the settings code takes from headers and drivers that are not
   * part of this model: STORAGE_MAGIC_NUMBER, the hardware and default user
   * band tables with the VHF and UHF band indices, the bit masks
   * BIT_SETTINGS_UPDATED, BIT_SECONDARY_LANGUAGE and BIT_SCAN_ON_BOOT_ENABLED,
   * languagesGetCount(), and the menu numbers UI_CHANNEL_MODE and UI_VFO_MODE.
   */
  datatype StoreConfig = StoreConfig(
    magic: int,
    hwBands: seq<Band>,
    defaultUserBands: seq<Band>,
    vhfBand: nat,
    uhfBand: nat,
    settingsUpdatedBit: bv32,
    secondaryLanguageBit: bv32,
    languageCount: int,
    scanOnBootBit: bv32,
    channelMenu: int,
    vfoMenu: int)

  /**
   * STORAGE_MAGIC_NUMBER is not 0, the value settingsLoadSettings writes to
   * mark a failed read; the band indices select entries of both tables;
   * the menu numbers fit the uint8 initialMenuNumber.
   */
  ghost predicate ConfigValid(c: StoreConfig)
  {
    c.magic != 0 && InRange(UInt32, c.magic) && InRange(UInt8, c.channelMenu) && InRange(UInt8, c.vfoMenu) &&
    |c.defaultUserBands| == |c.hwBands| && c.vhfBand < |c.hwBands| && c.uhfBand < |c.hwBands|
  }

  /** DEFAULT_USER_FREQUENCY_BANDS[RADIO_BAND_VHF].minFreq */
  function DefaultVhfMin(c: StoreConfig): int
    requires ConfigValid(c)
  {
    c.defaultUserBands[c.vhfBand].minFreq
  }

  /** The record written by settingsRestoreDefaultSettings (on the fields modelled). */
  function Defaults(c: StoreConfig): (s: NvSettings)
    requires ConfigValid(c)
    ensures WellFormed(s) && s.magicNumber == c.magic
    ensures s.vfoScanLow == [0, 0] && s.vfoScanHigh == [0, 0]
    ensures s.scanDelay == 5 && s.scanStepTime == 0 && s.scanModePause == ScanModeHold && s.ecoLevel == 1
    ensures s.vfoSweepSettings == SweepWord.DefaultWord()
    ensures s.initialMenuNumber == c.vfoMenu
    ensures SweepWord.StepIndexOf(s.vfoSweepSettings) == SweepWord.SWEEP_STEP_TABLE_LENGTH - 1
  {
    NvSettings(
      magicNumber := c.magic,
      currentVfoNumber := 0,
      currentIndexInTRxGroupList := [0, 0, 0],
      vfoScanLow := [0, 0],
      vfoScanHigh := [0, 0],
      scanDelay := 5,
      scanStepTime := 0,
      scanModePause := ScanModeHold,
      vfoSweepSettings := SweepWord.DefaultWord(),
      bitfieldOptions := c.settingsUpdatedBit,
      overrideTG := 0,
      ecoLevel := 1,
      dmrCcTsFilter := CcTsFilter(true, true),
      initialMenuNumber := c.vfoMenu)
  }

  // ---------------------------------------------------------------------
  // Load-time checks

  /**
   * settingsVFOSanityCheck: a VFO whose TX or RX frequency is out of band
   * is reset to an analog channel on the default VHF minimum, no tones,
   * squelch 10 and the smallest step; a VFO in band is kept.
   */
  function SanitizedVfo(c: StoreConfig, ch: Channel): (r: Channel)
    requires ConfigValid(c)
  {
    if !InBand(c.hwBands, ch.txFreq) || !InBand(c.hwBands, ch.rxFreq) then
      ch.(chMode := Analog, txFreq := DefaultVhfMin(c), rxFreq := DefaultVhfMin(c),
          txTone := CODEPLUG_CSS_TONE_NONE, rxTone := CODEPLUG_CSS_TONE_NONE, sql := 10,
          vfoFlag5 := ch.vfoFlag5 & 0x0F)
    else ch
  }

  /**
   * After the sanity check both frequencies of a VFO are in band (given a
   * default VHF minimum that is itself in band), an in-band VFO is kept as
   * it is, and a second check changes nothing.
   */
  lemma SanitizedVfoInBand(c: StoreConfig, ch: Channel)
    requires ConfigValid(c) && InBand(c.hwBands, DefaultVhfMin(c))
    ensures InBand(c.hwBands, SanitizedVfo(c, ch).rxFreq) && InBand(c.hwBands, SanitizedVfo(c, ch).txFreq)
    ensures InBand(c.hwBands, ch.rxFreq) && InBand(c.hwBands, ch.txFreq) ==> SanitizedVfo(c, ch) == ch
    ensures SanitizedVfo(c, SanitizedVfo(c, ch)) == SanitizedVfo(c, ch)
    ensures SanitizedVfo(c, ch) != ch ==> SanitizedVfo(c, ch).chMode == Analog && StepIndex(SanitizedVfo(c, ch)) == 0
  {
    var r := SanitizedVfo(c, ch);
    if r != ch {
      assert r.vfoFlag5 == ch.vfoFlag5 & 0x0F;
      assert (r.vfoFlag5 >> 4) == 0;
    }
  }

  /** The device-information band limits are used only if everything about them is consistent. */
  predicate DeviceLimitsValid(info: DeviceInfo, vhf: Band, uhf: Band)
  {
    info.minVHFFreq < info.maxVHFFreq &&
    info.minUHFFreq > info.maxVHFFreq &&
    info.minUHFFreq < info.maxUHFFreq &&
    Contains(vhf, info.minVHFFreq * 100000) && Contains(vhf, info.maxVHFFreq * 100000) &&
    Contains(uhf, info.minUHFFreq * 100000) && Contains(uhf, info.maxUHFFreq * 100000)
  }

  /** USER_FREQUENCY_BANDS after loading: the device limits (MHz to 10 Hz units) when valid, else unchanged. */
  function UserBandsAfterLoad(c: StoreConfig, info: Option<DeviceInfo>, bands: seq<Band>): (r: seq<Band>)
    requires ConfigValid(c) && |bands| == |c.hwBands|
    ensures |r| == |bands|
  {
    if info.Some? && DeviceLimitsValid(info.value, c.hwBands[c.vhfBand], c.hwBands[c.uhfBand]) then
      var i := info.value;
      bands[c.vhfBand := Band(i.minVHFFreq * 100000, i.maxVHFFreq * 100000)]
           [c.uhfBand := Band(i.minUHFFreq * 100000, i.maxUHFFreq * 100000)]
    else bands
  }

  /**
   * Accepted device limits give non-empty user bands inside the hardware
   * VHF and UHF bands, with the whole VHF band below the UHF band; rejected
   * limits leave the user bands as they were.
   */
  lemma UserBandsWithinHardware(c: StoreConfig, info: Option<DeviceInfo>, bands: seq<Band>)
    requires ConfigValid(c) && |bands| == |c.hwBands| && c.vhfBand != c.uhfBand
    ensures var r := UserBandsAfterLoad(c, info, bands);
      if info.Some? && DeviceLimitsValid(info.value, c.hwBands[c.vhfBand], c.hwBands[c.uhfBand]) then
        r[c.vhfBand].minFreq < r[c.vhfBand].maxFreq < r[c.uhfBand].minFreq < r[c.uhfBand].maxFreq &&
        c.hwBands[c.vhfBand].minFreq <= r[c.vhfBand].minFreq && r[c.vhfBand].maxFreq <= c.hwBands[c.vhfBand].maxFreq &&
        c.hwBands[c.uhfBand].minFreq <= r[c.uhfBand].minFreq && r[c.uhfBand].maxFreq <= c.hwBands[c.uhfBand].maxFreq
      else r == bands
  {
  }

  /**
   * The secondary-language check: a secondary language selected while the
   * firmware holds fewer than two languages is switched off, which leaves
   * the settings dirty; otherwise the loaded settings are clean.
   * Returns the record and the new value of settingsDirty. Only the option
   * bits can change.
   */
  function AfterLanguageCheck(c: StoreConfig, s: NvSettings): (r: (NvSettings, bool))
    ensures r.0 == s.(bitfieldOptions := r.0.bitfieldOptions)
  {
    if OptionBitSet(s.bitfieldOptions, c.secondaryLanguageBit) && c.languageCount < 2 then
      (s.(bitfieldOptions := OptionsWith(s.bitfieldOptions, c.secondaryLanguageBit, false)), true)
    else (s, false)
  }

  /**
   * After the language check the secondary language is selected only when
   * the firmware holds two languages; with two languages nothing changes at
   * all; and the settings are dirty exactly when the check had to switch
   * the secondary language off.
   */
  lemma LanguageCheckSettles(c: StoreConfig, s: NvSettings)
    ensures var r := AfterLanguageCheck(c, s);
      c.secondaryLanguageBit != 0 && OptionBitSet(r.0.bitfieldOptions, c.secondaryLanguageBit) ==> c.languageCount >= 2
    ensures c.languageCount >= 2 ==> AfterLanguageCheck(c, s) == (s, false)
    ensures AfterLanguageCheck(c, s).1 <==> OptionBitSet(s.bitfieldOptions, c.secondaryLanguageBit) && c.languageCount < 2
  {
    if OptionBitSet(s.bitfieldOptions, c.secondaryLanguageBit) && c.languageCount < 2 {
      ClearedBitIsClear(s.bitfieldOptions, c.secondaryLanguageBit);
    }
  }

  /** The language check changes no option bit other than the secondary-language bit. */
  lemma LanguageCheckKeepsOtherOptions(c: StoreConfig, s: NvSettings)
    ensures AfterLanguageCheck(c, s).0.bitfieldOptions & !c.secondaryLanguageBit == s.bitfieldOptions & !c.secondaryLanguageBit
  {
    var x, bit := s.bitfieldOptions, c.secondaryLanguageBit;
    var o := AfterLanguageCheck(c, s).0.bitfieldOptions;
    assert o == x || o == x & !bit;
    MaskedOptionsKept(x, bit, o);
  }

  /** Options that are either kept or have a mask cleared agree outside that mask. */
  lemma MaskedOptionsKept(x: bv32, bit: bv32, o: bv32)
    requires o == x || o == x & !bit
    ensures o & !bit == x & !bit
  {
  }

  /**
   * The initial-menu checks at the end of settingsLoadSettings: with scan
   * on boot enabled, an initial menu other than the channel screen is set
   * to it through settingsSet, which marks the settings dirty; then, while
   * the two screens have different numbers, any initial menu other than the
   * channel screen becomes the VFO screen, without marking anything dirty.
   * Only the initial menu number can change.
   */
  function AfterBootMenu(c: StoreConfig, s: NvSettings, dirty: bool): (r: (NvSettings, bool))
    requires ConfigValid(c) && WellFormed(s)
    ensures WellFormed(r.0) && r.0 == s.(initialMenuNumber := r.0.initialMenuNumber)
  {
    var boot := OptionBitSet(s.bitfieldOptions, c.scanOnBootBit) && s.initialMenuNumber != c.channelMenu;
    var s1 := if boot then With(s, InitialMenuNumber, Wrap(UInt8, c.channelMenu)) else s;
    var d1 := boot || dirty;
    if s1.initialMenuNumber != c.channelMenu && c.channelMenu != c.vfoMenu then (s1.(initialMenuNumber := c.vfoMenu), d1)
    else (s1, d1)
  }

  /**
   * The initial menu ends on the channel or the VFO screen, on the channel
   * screen whenever scan on boot is enabled; the settings become dirty
   * exactly when scan on boot had to move the menu (or were dirty
   * already); and a channel-screen menu is left alone.
   */
  lemma BootMenuSettles(c: StoreConfig, s: NvSettings, dirty: bool)
    requires ConfigValid(c) && WellFormed(s)
    ensures c.channelMenu != c.vfoMenu ==>
      AfterBootMenu(c, s, dirty).0.initialMenuNumber == c.channelMenu || AfterBootMenu(c, s, dirty).0.initialMenuNumber == c.vfoMenu
    ensures OptionBitSet(s.bitfieldOptions, c.scanOnBootBit) ==> AfterBootMenu(c, s, dirty).0.initialMenuNumber == c.channelMenu
    ensures AfterBootMenu(c, s, dirty).1 <==> dirty || (OptionBitSet(s.bitfieldOptions, c.scanOnBootBit) && s.initialMenuNumber != c.channelMenu)
    ensures s.initialMenuNumber == c.channelMenu ==> AfterBootMenu(c, s, dirty) == (s, dirty)
  {
  }

  /** Everything settingsLoadSettings decides about a loaded record: the language check, then the initial-menu checks. */
  function AfterLoadChecks(c: StoreConfig, s: NvSettings): (r: (NvSettings, bool))
    requires ConfigValid(c) && WellFormed(s)
    ensures WellFormed(r.0) && r.0 == s.(bitfieldOptions := r.0.bitfieldOptions, initialMenuNumber := r.0.initialMenuNumber)
  {
    var l := AfterLanguageCheck(c, s);
    AfterBootMenu(c, l.0, l.1)
  }

  /**
   * A loaded record keeps the secondary language only with two languages,
   * starts on the channel or the VFO screen, on the channel screen when
   * scan on boot is enabled, and differs from the stored record in nothing
   * else; with two languages, a stored record that starts on the channel
   * screen is loaded as it is and clean.
   */
  lemma {:induction false} LoadChecksSettle(c: StoreConfig, s: NvSettings)
    requires ConfigValid(c) && WellFormed(s) && c.secondaryLanguageBit != 0 && c.channelMenu != c.vfoMenu
    ensures var r := AfterLoadChecks(c, s);
      (OptionBitSet(r.0.bitfieldOptions, c.secondaryLanguageBit) ==> c.languageCount >= 2) &&
      (r.0.initialMenuNumber == c.channelMenu || r.0.initialMenuNumber == c.vfoMenu) &&
      (OptionBitSet(r.0.bitfieldOptions, c.scanOnBootBit) ==> r.0.initialMenuNumber == c.channelMenu)
    ensures c.languageCount >= 2 && s.initialMenuNumber == c.channelMenu ==> AfterLoadChecks(c, s) == (s, false)
  {
    var l := AfterLanguageCheck(c, s);
    LanguageCheckSettles(c, s);
    BootMenuSettles(c, l.0, l.1);
  }

  // ---------------------------------------------------------------------
  // The RD5R save debounce (compiled out on the MD2017)

  const DIRTY_DURATION_MILLISECS: int := 500

  /**
   * The condition under which settingsSaveIfNeeded saves on the RD5R: the
   * settings or a VFO are dirty, and either the save is immediate or more
   * than 500 ms have passed since the last change (on the wrapping 32-bit
   * millisecond tick) and no channel scan is running.
   */
  predicate Rd5rSaveDue(dirty: bool, vfoDirty: bool, immediately: bool, now: int, dirtyTime: int,
                        scanActive: bool, inChannelMode: bool)
  {
    (dirty || vfoDirty) &&
    (immediately || (Wrap(UInt32, now - dirtyTime) > DIRTY_DURATION_MILLISECS && (!scanActive || !inChannelMode)))
  }

  /**
   * Nothing clean is ever saved; anything dirty is saved when asked to be
   * immediate; and the 500 ms debounce survives the tick counter wrapping.
   */
  lemma Rd5rSaveRule(dirty: bool, vfoDirty: bool, now: int, dirtyTime: int, scanActive: bool, inChannelMode: bool)
    requires InRange(UInt32, now) && InRange(UInt32, dirtyTime)
    ensures !dirty && !vfoDirty ==> !Rd5rSaveDue(dirty, vfoDirty, true, now, dirtyTime, scanActive, inChannelMode)
    ensures dirty || vfoDirty ==> Rd5rSaveDue(dirty, vfoDirty, true, now, dirtyTime, scanActive, inChannelMode)
    ensures now < dirtyTime && now + 0x1_0000_0000 - dirtyTime > 500 && !scanActive ==>
      Rd5rSaveDue(dirty || vfoDirty, true, false, now, dirtyTime, scanActive, inChannelMode) == true
    ensures dirtyTime <= now <= dirtyTime + 500 ==> !Rd5rSaveDue(dirty, vfoDirty, false, now, dirtyTime, scanActive, inChannelMode)
  {
  }

  // ---------------------------------------------------------------------
  // The store

  class SettingsStore {
    const cfg: StoreConfig
    var nv: NvSettings               // nonVolatileSettings
    var dirty: bool                  // settingsDirty
    var vfoDirty: bool               // settingsVFODirty
    var vfo: seq<Channel>            // settingsVFOChannel[2]
    var userBands: seq<Band>         // USER_FREQUENCY_BANDS
    var flashInitFailed: bool        // spiFlashInitHasFailed
    var storedBlob: Option<NvSettings>
    var writeSucceeds: bool
    var codeplugVfo: seq<Channel>
    var deviceInfo: Option<DeviceInfo>

    ghost predicate Valid()
      reads `nv, `vfo, `codeplugVfo, `userBands, `storedBlob
    {
      // bound to a name so that proving Valid() is one obligation, not one per conjunct
      var ok := ConfigValid(cfg) && NvValid() && VfosValid() && |codeplugVfo| == 2 &&
        |userBands| == |cfg.hwBands| &&
        (storedBlob.Some? ==> WellFormed(storedBlob.value));
      ok
    }

    /** The part of Valid about the settings record. */
    ghost predicate NvValid()
      reads `nv
    {
      var ok := WellFormed(nv);
      ok
    }

    /** The part of Valid about the two VFO records. */
    ghost predicate VfosValid()
      reads `vfo
    {
      |vfo| == 2
    }

    /** The VFO record the VFO screen works on (currentChannelData). */
    function Current(): Channel
      reads `nv, `vfo
      requires NvValid() && VfosValid()
    {
      vfo[nv.currentVfoNumber]
    }

    /** The settings at power-up, before settingsLoadSettings: zeroed, with the given storage. */
    constructor (c: StoreConfig, blob: Option<NvSettings>, writeOk: bool, flashFailed: bool,
                 cpVfo: seq<Channel>, info: Option<DeviceInfo>)
      requires ConfigValid(c) && |cpVfo| == 2 && (blob.Some? ==> WellFormed(blob.value))
      ensures Valid()
      ensures cfg == c && storedBlob == blob && writeSucceeds == writeOk && flashInitFailed == flashFailed
      ensures codeplugVfo == cpVfo && deviceInfo == info && vfo == cpVfo && userBands == c.defaultUserBands
      ensures !dirty && !vfoDirty
    {
      cfg := c;
      nv := NvSettings(0, 0, [0, 0, 0], [0, 0], [0, 0], 0, 0, ScanModeHold, 0, 0, 0, 0, CcTsFilter(false, false), 0);
      dirty := false;
      vfoDirty := false;
      vfo := cpVfo;
      userBands := c.defaultUserBands;
      flashInitFailed := flashFailed;
      storedBlob := blob;
      writeSucceeds := writeOk;
      codeplugVfo := cpVfo;
      deviceInfo := info;
    }

    /** settingsSetDirty */
    method SetDirty()
      modifies `dirty
      ensures dirty
    {
      dirty := true;
    }

    /** settingsSetVFODirty */
    method SetVfoDirty()
      modifies `vfoDirty
      ensures vfoDirty
    {
      vfoDirty := true;
    }

    /**
     * settingsSetBOOL/INT8/.../UINT32, by way of settingsSet: the value,
     * converted to the field's C type, is stored and the settings become
     * dirty, whether or not the value changed.
     */
    method Set(f: Field, v: int)
      requires Valid() && FieldExists(f) && Storable(f, Wrap(FieldWidth(f), v))
      modifies `nv, `dirty
      ensures Valid()
      ensures nv == With(old(nv), f, Wrap(FieldWidth(f), v))
      ensures dirty
    {
      nv := With(nv, f, Wrap(FieldWidth(f), v));
      dirty := true;
    }

    /** settingsIncINT8/.../UINT32: *s = *s + v in the field's C type, then dirty. */
    method Inc(f: Field, v: int)
      requires Valid() && FieldExists(f)
      requires Storable(f, IncValue(FieldWidth(f), Get(nv, f), v))
      modifies `nv, `dirty
      ensures Valid()
      ensures nv == With(old(nv), f, IncValue(FieldWidth(f), Get(old(nv), f), v))
      ensures dirty
    {
      nv := With(nv, f, IncValue(FieldWidth(f), Get(nv, f), v));
      dirty := true;
    }

    /** settingsDecINT8/.../UINT32: *s = *s - v in the field's C type, then dirty. */
    method Dec(f: Field, v: int)
      requires Valid() && FieldExists(f)
      requires Storable(f, DecValue(FieldWidth(f), Get(nv, f), v))
      modifies `nv, `dirty
      ensures Valid()
      ensures nv == With(old(nv), f, DecValue(FieldWidth(f), Get(old(nv), f), v))
      ensures dirty
    {
      nv := With(nv, f, DecValue(FieldWidth(f), Get(nv, f), v));
      dirty := true;
    }

    /** settingsSetOptionBit: set or clear the mask's bits, then dirty. */
    method SetOptionBit(bit: bv32, on: bool)
      requires Valid()
      modifies `nv, `dirty
      ensures Valid()
      ensures nv == old(nv).(bitfieldOptions := OptionsWith(old(nv).bitfieldOptions, bit, on))
      ensures dirty
    {
      nv := nv.(bitfieldOptions := OptionsWith(nv.bitfieldOptions, bit, on));
      dirty := true;
    }

    /** settingsIsOptionBitSet */
    function IsOptionBitSet(bit: bv32): bool
      reads `nv
    {
      OptionBitSet(nv.bitfieldOptions, bit)
    }

    /** settingsGetScanStepTimeMilliseconds */
    function GetScanStepTimeMilliseconds(): (r: int)
      reads `nv
      requires NvValid()
      ensures r >= 30
    {
      ScanStepTimeMs(nv.scanStepTime)
    }

    /**
     * settingsSaveSettings: nothing at all when the flash failed to
     * initialise; otherwise the VFOs are written to the codeplug first if
     * asked (and are then clean), and the record is written to storage,
     * which makes the settings clean only if the write succeeded.
     */
    method SaveSettings(includeVfos: bool) returns (ok: bool)
      requires Valid()
      modifies `codeplugVfo, `vfoDirty, `storedBlob, `dirty
      ensures Valid()
      ensures flashInitFailed ==> !ok && codeplugVfo == old(codeplugVfo) && vfoDirty == old(vfoDirty) &&
                                  storedBlob == old(storedBlob) && dirty == old(dirty)
      ensures !flashInitFailed ==> ok == writeSucceeds
      ensures !flashInitFailed ==> codeplugVfo == (if includeVfos then vfo else old(codeplugVfo))
      ensures !flashInitFailed ==> vfoDirty == (if includeVfos then false else old(vfoDirty))
      ensures !flashInitFailed ==> storedBlob == (if writeSucceeds then Some(nv) else old(storedBlob))
      ensures !flashInitFailed ==> dirty == (if writeSucceeds then false else old(dirty))
    {
      if flashInitFailed {
        return false;
      }
      if includeVfos {
        codeplugVfo := vfo;
        vfoDirty := false;
      }
      ok := writeSucceeds;
      if ok {
        storedBlob := Some(nv);
        dirty := false;
      }
    }

    /** settingsSaveIfNeeded: compiled only for the RD5R, so it does nothing on the MD2017. */
    method SaveIfNeeded(immediately: bool)
      ensures unchanged(this)
    {
    }

    /**
     * settingsRestoreDefaultSettings: the record becomes the defaults, the
     * settings are marked dirty and written once (without the VFOs).
     */
    method RestoreDefaultSettings() returns (r: bool)
      requires Valid()
      modifies `nv, `dirty, `codeplugVfo, `vfoDirty, `storedBlob
      ensures Valid() && r
      ensures nv == Defaults(cfg)
      ensures codeplugVfo == old(codeplugVfo) && vfoDirty == old(vfoDirty)
      ensures storedBlob == (if !flashInitFailed && writeSucceeds then Some(Defaults(cfg)) else old(storedBlob))
      ensures dirty == (flashInitFailed || !writeSucceeds)
    {
      nv := Defaults(cfg);
      dirty := true;
      var _ := SaveSettings(false);
      r := true;
    }

    /** The magic number the record holds after settingsStorageRead (0 when the read fails). */
    ghost function MagicAfterRead(): int
      reads `storedBlob
    {
      if storedBlob.Some? then storedBlob.value.magicNumber else 0
    }

    /** settingsVFOSanityCheck on VFO i: a corrected VFO is also written back to the codeplug. */
    method VfoSanityCheck(i: nat)
      requires Valid() && i < 2
      modifies `vfo, `codeplugVfo
      ensures Valid()
      ensures vfo == old(vfo)[i := SanitizedVfo(cfg, old(vfo)[i])]
      ensures codeplugVfo == if SanitizedVfo(cfg, old(vfo)[i]) != old(vfo)[i]
                             then old(codeplugVfo)[i := SanitizedVfo(cfg, old(vfo)[i])] else old(codeplugVfo)
    {
      var ch := SanitizedVfo(cfg, vfo[i]);
      if ch != vfo[i] {
        vfo := vfo[i := ch];
        codeplugVfo := codeplugVfo[i := ch];
      }
    }

    /** The VFO part of settingsLoadSettings: codeplugGetVFO_ChannelData for both VFOs, then the sanity check. */
    method LoadVfos()
      requires Valid()
      modifies `vfo, `codeplugVfo
      ensures Valid()
      ensures vfo == [SanitizedVfo(cfg, old(codeplugVfo)[0]), SanitizedVfo(cfg, old(codeplugVfo)[1])]
      ensures codeplugVfo == vfo
    {
      vfo := codeplugVfo;
      VfoSanityCheck(0);
      VfoSanityCheck(1);
    }

    /**
     * The secondary-language check of settingsLoadSettings: it clears the
     * bit and marks the settings dirty, or leaves them clean.
     */
    method LanguageCheck()
      requires Valid()
      modifies `nv, `dirty
      ensures Valid()
      ensures (nv, dirty) == AfterLanguageCheck(cfg, old(nv))
    {
      if OptionBitSet(nv.bitfieldOptions, cfg.secondaryLanguageBit) && cfg.languageCount < 2 {
        SetOptionBit(cfg.secondaryLanguageBit, false);
        dirty := true;
      } else {
        dirty := false;
      }
    }

    /**
     * The initial-menu checks of settingsLoadSettings: scan on boot moves
     * the initial menu to the channel screen with settingsSet; any other
     * menu than the channel screen is then reset to the VFO screen.
     */
    method BootMenuCheck()
      requires Valid()
      modifies `nv, `dirty
      ensures Valid()
      ensures (nv, dirty) == AfterBootMenu(cfg, old(nv), old(dirty))
    {
      if IsOptionBitSet(cfg.scanOnBootBit) && nv.initialMenuNumber != cfg.channelMenu {
        Set(InitialMenuNumber, cfg.channelMenu);
      }
      if nv.initialMenuNumber != cfg.channelMenu && cfg.channelMenu != cfg.vfoMenu {
        nv := nv.(initialMenuNumber := cfg.vfoMenu);
      }
    }

    /**
     * The part of settingsLoadSettings after a record with the right magic
     * number was read: the VFOs, the device band limits when valid, the
     * language check, clean VFOs and the initial-menu checks.
     */
    method FinishLoad()
      requires Valid()
      modifies `nv, `dirty, `vfoDirty, `vfo, `codeplugVfo, `userBands
      ensures Valid()
      ensures (nv, dirty) == AfterLoadChecks(cfg, old(nv))
      ensures vfo == [SanitizedVfo(cfg, old(codeplugVfo)[0]), SanitizedVfo(cfg, old(codeplugVfo)[1])]
      ensures codeplugVfo == vfo
      ensures userBands == UserBandsAfterLoad(cfg, deviceInfo, old(userBands))
      ensures !vfoDirty
    {
      LoadVfos();
      userBands := UserBandsAfterLoad(cfg, deviceInfo, userBands);
      LanguageCheck();
      vfoDirty := false;
      BootMenuCheck();
    }

    /**
     * settingsLoadSettings(reset). A reset, a failed read or a wrong magic
     * number restores and saves the defaults and loads again, answering
     * true; a good record is loaded as stored, answering false; then the
     * rest of the load is FinishLoad.
     *
     * The source recurses until a read returns the magic number. After a
     * reset of a good record that happens at once, whether or not the
     * defaults could be written: the second read returns the defaults or
     * the record that was there. A bad record is replaced only if the
     * defaults can be written, which the requires clause demands.
     */
    method LoadSettings(reset: bool) returns (r: bool)
      requires Valid()
      requires MagicAfterRead() != cfg.magic ==> !flashInitFailed && writeSucceeds
      modifies `nv, `dirty, `vfoDirty, `vfo, `codeplugVfo, `storedBlob, `userBands
      ensures Valid()
      ensures r == (reset || old(MagicAfterRead()) != cfg.magic)
      ensures r ==> storedBlob == (if !flashInitFailed && writeSucceeds then Some(Defaults(cfg)) else old(storedBlob))
      ensures r ==> storedBlob.Some? && (nv, dirty) == AfterLoadChecks(cfg, storedBlob.value)
      ensures !r ==> old(storedBlob).Some? && storedBlob == old(storedBlob) &&
                     (nv, dirty) == AfterLoadChecks(cfg, old(storedBlob).value)
      ensures vfo == [SanitizedVfo(cfg, old(codeplugVfo)[0]), SanitizedVfo(cfg, old(codeplugVfo)[1])]
      ensures codeplugVfo == vfo
      ensures userBands == UserBandsAfterLoad(cfg, deviceInfo, old(userBands))
      ensures !vfoDirty
      decreases if reset || MagicAfterRead() != cfg.magic then 1 else 0
    {
      // settingsStorageRead; a failed read leaves magicNumber 0
      if storedBlob.Some? {
        nv := storedBlob.value;
      } else {
        nv := nv.(magicNumber := 0);
      }

      if reset || nv.magicNumber != cfg.magic {
        var _ := RestoreDefaultSettings();
        var _ := LoadSettings(false);
        return true;
      }
      FinishLoad();
      r := false;
    }
  }
}
