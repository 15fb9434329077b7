# VFO screen scan engine of the MD2017 firmware

This project models the core of the VFO screen of the MD2017 build of the
firmware, and of the settings store behind it, in Dafny:

- band-aware frequency stepping (`stepFrequency`, `updateFrequency`);
- the frequency scan between two limits and dual watch (`scanInit`,
  `scanning`, the nuisance-frequency ring, the scan-key handling in
  `handleEvent`);
- the spectrum sweep (`sweepScanInit`, `sweepScanStep`,
  `vfoSweepUpdateSamples`, `setSweepIncDecSetting` and the sweep settings
  word);
- the CTCSS/DCS tone scan;
- the TG-list index repair;
- the settings store of `settings.c`: typed get/set/inc/dec with the
  field's integer width, the option bits, save, restore-defaults, load with
  the VFO sanity check and device band limits, and the save-if-needed rules.

Frequencies are integers in units of 10 Hz. The build is fixed to MD2017,
so the sweep graph has 160 samples.

## Modules

- `UiGlobals`: the constants and enumerations of `uiGlobals.h`.
- `Bands`: the hardware band table and the band lookups.
- `Radio`: an append-only command log. The transceiver calls of the firmware
  are modelled as entries in it, so contracts can say what the radio was
  told.
- `Codeplug`: the VFO channel record, the receive group and the
  device-information limits.
- `SweepWord`: the packed `vfoSweepSettings` word.
- `Settings`: the settings store. It has integer-width arithmetic, and a
  `SettingsStore` class with the non-volatile record, the two VFO records,
  the dirty flags and the flash image.
- `SweepSamples`: the sweep graph as a value, and the setting adjustments.
- `SweepScan`: the graph after a pan or a rescale, and the sweep cursor.
- `Tones`: the tone families and their tables.
- `ScanLogic`: the pure decisions of the scan. These are:
  - the dwell times and the pause/stop phase of a tick;
  - the window and its limits;
  - the step outcome at band edges;
  - the key roles and the TG list.
- `VfoMode`: the VFO screen itself, as a `VfoScreen` class.
  - Its fields are the scan record, the file's statics and the sweep buffer
    (an `array`).
  - It has one method per operation of `uiVFOMode.c`.
  - Each method is proved against the specification functions above.
  - The graph operations (pan, compress, expand) are in-place array loops.
    Their results are tied to the value functions of `SweepSamples`.

In the table, `uiVFOMode.c` is
`MD2017_firmware/application/source/user_interface/uiVFOMode.c`, `settings.c`
is `MD2017_firmware/application/source/functions/settings.c` and `uiGlobals.h`
is `MD2017_firmware/application/include/user_interface/uiGlobals.h`.

## Model

| member | source | states |
|---|---|---|
| UiGlobals.ScanStateValue | MD2017_firmware/application/include/user_interface/uiGlobals.h:319-324 | The enumeration values lie in 0..2, and SCANNING is 0 and PAUSED is 2, both ways. |
| UiGlobals.ScanStateOfValue | MD2017_firmware/application/include/user_interface/uiGlobals.h:319-324 | Decoding a value in 0..2 gives the state that encodes to it. |
| UiGlobals.ScanStateValueRoundTrip | MD2017_firmware/application/include/user_interface/uiGlobals.h:319-324 | Encoding then decoding a scan state gives it back. |
| UiGlobals.DwellFloorsOrdered | MD2017_firmware/application/include/user_interface/uiGlobals.h:199-216 | Simplex dwell floors are at least the duplex ones, and slow floors at least the fast ones. The floors are whole timeslots. |
| UiGlobals.SweepDefaultsInRange | MD2017_firmware/application/include/user_interface/uiGlobals.h:223-235 | The sweep gain and noise-floor defaults lie within their min..max. The maxima fit the 7-bit and 5-bit fields of the settings word. The sample count is a multiple of 4. |
| Bands.GetBandFromFrequency | MD2017_firmware/application/source/functions/settings.c:606-608 | A band is found exactly when some band holds the frequency, and the band found holds it (the C result for none is FREQUENCY_OUT_OF_BAND). |
| Bands.GetNextOrPrevBand | MD2017_firmware/application/source/user_interface/uiVFOMode.c:2489-2494 | The band found going up starts above the frequency. The band found going down ends below it. |
| Bands.NextBandIsNearest | MD2017_firmware/application/source/user_interface/uiVFOMode.c:2489-2494 | In a sorted, disjoint table, no frequency between a gap frequency and the start of the next band up is in any band. |
| Bands.NoNextBandMeansNothingAbove | MD2017_firmware/application/source/user_interface/uiVFOMode.c:2489-2500 | With no band above a gap frequency, nothing at or above it is in a band. |
| Bands.PrevBandIsNearest | MD2017_firmware/application/source/user_interface/uiVFOMode.c:2489-2494 | No frequency between the end of the band below and the gap frequency is in any band. |
| Bands.NoPrevBandMeansNothingBelow | MD2017_firmware/application/source/user_interface/uiVFOMode.c:2489-2500 | With no band below a gap frequency, nothing at or below it is in a band. |
| Bands.BandEdgesInBand | MD2017_firmware/application/source/user_interface/uiVFOMode.c:2493-2497 | In a sorted table both edges of a band are in band, so a step that lands on an edge is committed. |
| Codeplug.StepIndex | MD2017_firmware/application/source/user_interface/uiVFOMode.c:3861 | The step index VFOflag5 >> 4 is always below 16. |
| Codeplug.DmrModeFor | MD2017_firmware/application/source/user_interface/uiVFOMode.c:2508 | DMO is passed to the radio exactly for a digital channel with the force-DMO flag, and RMO never is. |
| SweepWord.StepIndexOf | MD2017_firmware/application/source/user_interface/uiVFOMode.c:3486 | The step index is a 3-bit field. |
| SweepWord.NoiseFloorOf | MD2017_firmware/application/source/user_interface/uiVFOMode.c:3487 | The noise floor is a 5-bit field. |
| SweepWord.GainOf | MD2017_firmware/application/source/user_interface/uiVFOMode.c:3488 | The gain is a 7-bit field. |
| SweepWord.Pack | MD2017_firmware/application/source/functions/settings.c:371 | Packing three in-range fields gives a 16-bit word whose unpackers return exactly those fields. |
| SweepWord.WithStepIndex | MD2017_firmware/application/source/user_interface/uiVFOMode.c:2394 | Writing the step field sets it and keeps the noise floor and gain. It clears the unused top bit. |
| SweepWord.WithNoiseFloor | MD2017_firmware/application/source/user_interface/uiVFOMode.c:2419-2420 | Writing the noise-floor field sets it and keeps the other fields and the top bit. |
| SweepWord.WithGain | MD2017_firmware/application/source/user_interface/uiVFOMode.c:2446-2447 | Writing the gain field sets it and keeps the other fields and the top bit. |
| SweepWord.PackRoundTrip | MD2017_firmware/application/source/user_interface/uiVFOMode.c:3486-3488 | Unpacking a word with a clear top bit and packing the fields again gives the same word. |
| SweepWord.DefaultWord | MD2017_firmware/application/source/functions/settings.c:371 | The default word holds the widest step index, and the default noise floor and gain. |
| Settings.Wrap | MD2017_firmware/application/source/functions/settings.c:429-469 | A value stored into a field lies in the range of the field's width, and a value already in range is stored unchanged. |
| Settings.WrapCongruent | MD2017_firmware/application/source/functions/settings.c:429-469 | Storing differs from the value by a whole multiple of the width's modulus (C's wrap-around). |
| Settings.IncValue | MD2017_firmware/application/source/functions/settings.c:471-505 | settingsIncrement leaves the field in range, and adds exactly when no wrap-around occurs. |
| Settings.DecValue | MD2017_firmware/application/source/functions/settings.c:507-541 | settingsDecrement leaves the field in range, and subtracts exactly when no wrap-around occurs. |
| Settings.IncThenDec | MD2017_firmware/application/source/functions/settings.c:471-541 | Decrementing by v undoes incrementing by v, for every width and every v, even across wrap-around. |
| Settings.DecThenInc | MD2017_firmware/application/source/functions/settings.c:471-541 | Incrementing by v undoes decrementing by v. |
| Settings.UnsignedIncWraps | MD2017_firmware/application/source/functions/settings.c:477-505 | An unsigned field at its maximum wraps to 0 when incremented. |
| Settings.With | MD2017_firmware/application/source/functions/settings.c:429-469 | Setting a field stores the value in that field and leaves every other field unchanged. |
| Settings.SetBitIsSet | MD2017_firmware/application/source/functions/settings.c:544-560 | After setting an option bit it reads as set, and no other bit changes. |
| Settings.ClearedBitIsClear | MD2017_firmware/application/source/functions/settings.c:544-560 | After clearing an option bit it reads as clear, and no other bit changes. |
| Settings.OptionsWithSpec | MD2017_firmware/application/source/functions/settings.c:544-565 | settingsSetOptionBit in both directions: the bit takes the requested state and the rest of the options are kept. |
| Settings.ScanStepTimeMs | MD2017_firmware/application/source/functions/settings.c:600-603 | The step time is (scanStepTime + 1) timeslots of 30 ms, so it lies in 30..7680 ms. |
| Settings.SlowModeThreshold | MD2017_firmware/application/source/functions/settings.c:600-603 | The scan runs in slow mode (step time above 150 ms) exactly when scanStepTime is 5 or more. |
| Settings.Defaults | MD2017_firmware/application/source/functions/settings.c:242-402 | The default record carries the magic number and clears both VFOs' scan limits. It has a 5 s scan delay, the 30 ms step time, the hold pause mode and eco level 1, and holds the default sweep word (widest step, default noise floor and gain). The initial menu is the VFO screen. |
| Settings.SanitizedVfoInBand | MD2017_firmware/application/source/functions/settings.c:606-618 | The sanity check leaves both VFO frequencies in band. It keeps an in-band VFO as it is, and is idempotent. A repaired VFO is analog with step index 0. |
| Settings.UserBandsAfterLoad | MD2017_firmware/application/source/functions/settings.c:136-161 | Loading the device limits keeps the number of user bands. |
| Settings.UserBandsWithinHardware | MD2017_firmware/application/source/functions/settings.c:139-161 | Valid device limits give ordered VHF and UHF user bands within the hardware bands. Missing or invalid limits leave the bands unchanged. |
| Settings.AfterLanguageCheck | MD2017_firmware/application/source/functions/settings.c:171-179 | The language check changes nothing in the record but its option bits. |
| Settings.LanguageCheckSettles | MD2017_firmware/application/source/functions/settings.c:171-179 | Afterwards the secondary language is selected only if the firmware holds two languages. With two languages the record is kept and clean. The settings are dirty exactly when the secondary language had to be switched off. |
| Settings.LanguageCheckKeepsOtherOptions | MD2017_firmware/application/source/functions/settings.c:171-179 | The language check changes no option bit other than the secondary-language bit. |
| Settings.AfterBootMenu | MD2017_firmware/application/source/functions/settings.c:193-208 | The initial-menu checks keep the record well formed and change nothing in it but the initial menu number. |
| Settings.BootMenuSettles | MD2017_firmware/application/source/functions/settings.c:193-208 | The initial menu ends on the channel or the VFO screen, and on the channel screen whenever scan on boot is enabled. The settings become dirty exactly when scan on boot had to move the menu, or were dirty already. A channel-screen menu is left alone. |
| Settings.AfterLoadChecks | MD2017_firmware/application/source/functions/settings.c:171-208 | The load's checks change nothing in the record but the option bits and the initial menu number. |
| Settings.LoadChecksSettle | MD2017_firmware/application/source/functions/settings.c:171-208 | A loaded record keeps the secondary language only with two languages. It starts on the channel or VFO screen, on the channel screen when scan on boot is enabled. With two languages, a record that starts on the channel screen is loaded unchanged and clean. |
| Settings.Rd5rSaveRule | MD2017_firmware/application/source/functions/settings.c:585-598 | The save rule of the RD-5R build. An immediate save happens exactly when something is dirty. A deferred save waits 500 ms across a tick-counter wrap, and never fires within 500 ms of the change. |
| Settings.SettingsStore.SetDirty | MD2017_firmware/application/source/functions/settings.c:567-574 | Marks the settings dirty. |
| Settings.SettingsStore.SetVfoDirty | MD2017_firmware/application/source/functions/settings.c:576-583 | Marks the VFOs dirty. |
| Settings.SettingsStore.Set | MD2017_firmware/application/source/functions/settings.c:429-469 | The record becomes the old one with the field set to the value wrapped to the field's width, and the settings are dirty. |
| Settings.SettingsStore.Inc | MD2017_firmware/application/source/functions/settings.c:471-505 | The record becomes the old one with the field incremented at its width, and the settings are dirty. |
| Settings.SettingsStore.Dec | MD2017_firmware/application/source/functions/settings.c:507-541 | The record becomes the old one with the field decremented at its width, and the settings are dirty. |
| Settings.SettingsStore.SetOptionBit | MD2017_firmware/application/source/functions/settings.c:544-555 | Only the option word changes, to the old word with the bit set or cleared, and the settings are dirty. |
| Settings.SettingsStore.GetScanStepTimeMilliseconds | MD2017_firmware/application/source/functions/settings.c:600-603 | The step time is at least one timeslot. |
| Settings.SettingsStore.SaveSettings | MD2017_firmware/application/source/functions/settings.c:72-100 | Nothing changes and false is returned when the flash failed to initialise. Otherwise the VFOs are copied to the codeplug when asked, the record is written, and the dirty flag clears only on a successful write. |
| Settings.SettingsStore.SaveIfNeeded | MD2017_firmware/application/source/functions/settings.c:585-598 | On MD2017 the call changes nothing. |
| Settings.SettingsStore.RestoreDefaultSettings | MD2017_firmware/application/source/functions/settings.c:242-405 | The record becomes the defaults and is saved without the VFOs. The settings stay dirty exactly when the save failed. |
| Settings.SettingsStore.VfoSanityCheck | MD2017_firmware/application/source/functions/settings.c:606-618 | The VFO becomes its sanitised record, which is written back to the codeplug only when it changed. |
| Settings.SettingsStore.LoadVfos | MD2017_firmware/application/source/functions/settings.c:121-127 | Both VFOs are read from the codeplug and sanitised. |
| Settings.SettingsStore.LanguageCheck | MD2017_firmware/application/source/functions/settings.c:171-179 | The record and dirty flag become those of the language check, so LanguageCheckSettles holds of them. |
| Settings.SettingsStore.BootMenuCheck | MD2017_firmware/application/source/functions/settings.c:193-208 | The record and dirty flag become those of the initial-menu checks, with the scan-on-boot move made through `Set`. |
| Settings.SettingsStore.FinishLoad | MD2017_firmware/application/source/functions/settings.c:121-208 | The VFOs are loaded and sanitised, the user bands take the device limits, and the VFOs are not dirty. The record and dirty flag are those of the language check followed by the initial-menu checks. |
| Settings.SettingsStore.LoadSettings | MD2017_firmware/application/source/functions/settings.c:102-222 | A reset or a bad magic number restores the defaults and returns true. The defaults are stored when the write succeeds, and the record read back is loaded: the defaults, or after a failed write the good record that was there. Otherwise the stored record is loaded and false is returned. In every case the load's checks follow. |
| SweepSamples.Zeros | MD2017_firmware/application/source/user_interface/uiVFOMode.c:3494 | A cleared graph is all zero. |
| SweepSamples.ShiftedLeft | MD2017_firmware/application/source/user_interface/uiVFOMode.c:2299-2306 | Panning up moves every sample k columns left and clears the k newly revealed columns on the right. |
| SweepSamples.ShiftedRight | MD2017_firmware/application/source/user_interface/uiVFOMode.c:2307-2314 | Panning down moves every sample k columns right and clears the k newly revealed columns on the left. |
| SweepSamples.PanUpThenDown | MD2017_firmware/application/source/user_interface/uiVFOMode.c:2299-2314 | Panning up then down restores the graph except the k columns lost off the left edge, which read zero. |
| SweepSamples.PanDownThenUp | MD2017_firmware/application/source/user_interface/uiVFOMode.c:2299-2314 | Panning down then up restores the graph except the k columns lost off the right edge. |
| SweepSamples.IndexAfterPan | MD2017_firmware/application/source/user_interface/uiVFOMode.c:2299-2314 | After a pan the sweep resumes on the graph. After a pan up it resumes at column N-1-k, the column just before the k revealed ones. |
| SweepSamples.Average | MD2017_firmware/application/source/user_interface/uiVFOMode.c:2322-2347 | The mean of two samples lies between them, and equals both when they agree. |
| SweepSamples.Compressed | MD2017_firmware/application/source/user_interface/uiVFOMode.c:2322-2334 | Zooming out puts the mean of each pair of samples into the middle half and clears both outer quarters. |
| SweepSamples.Expanded | MD2017_firmware/application/source/user_interface/uiVFOMode.c:2336-2347 | Zooming in spreads the middle half over the graph. Each column is the mean of its two middle-half neighbours, and the last column repeats the one before it. |
| SweepSamples.RescaleKeepsPeak | MD2017_firmware/application/source/user_interface/uiVFOMode.c:2316-2350 | Neither rescale raises the graph's peak. |
| SweepSamples.RescaleKeepsFlatTrace | MD2017_firmware/application/source/user_interface/uiVFOMode.c:2316-2350 | A flat trace stays flat over the middle half when compressed, and unchanged when expanded. |
| SweepSamples.ExpandedPair | MD2017_firmware/application/source/user_interface/uiVFOMode.c:2336-2347 | Zooming in gives columns 2m and 2m+1 the same value, the mean of middle-half columns m and m+1. |
| SweepSamples.CompressThenExpandAverages | MD2017_firmware/application/source/user_interface/uiVFOMode.c:2316-2350 | Zooming out then in replaces each pair of columns by the mean of the two neighbouring pair-means. |
| SweepSamples.TruncDiv | MD2017_firmware/application/source/user_interface/uiVFOMode.c:3552-3560 | C's division, truncating toward zero: the remainder is smaller than the divisor in magnitude and has the sign of the dividend. |
| SweepSamples.SweepFrequencyShape | MD2017_firmware/application/source/user_interface/uiVFOMode.c:3552-3560 | The sweep frequency is the centre frequency at the middle column, symmetric about it, and non-decreasing across the graph. |
| SweepSamples.TruncDivMonotone | MD2017_firmware/application/source/user_interface/uiVFOMode.c:3552-3560 | Truncating division by the pixels-per-step is monotone. |
| SweepSamples.Unpacked | MD2017_firmware/application/source/user_interface/uiVFOMode.c:3486-3488 | Unpacking gives the three fields at their widths. |
| SweepSamples.DefaultWordInRanges | MD2017_firmware/application/source/functions/settings.c:371 | The default sweep word unpacks to the widest step and the default noise floor and gain, all in range. |
| SweepSamples.StepIndexAdjusted | MD2017_firmware/application/source/user_interface/uiVFOMode.c:2377-2397 | The step index moves one place in the key's direction. It stays put exactly at the end it would leave. |
| SweepSamples.Adjusted | MD2017_firmware/application/source/user_interface/uiVFOMode.c:2370-2459 | An applied adjustment writes only the adjusted field into the word and keeps the settings in range. An ignored one changes nothing. Only a step change rescales the graph, by one in the key's direction. |
| SweepSamples.AdjustKeepsWordInRanges | MD2017_firmware/application/source/user_interface/uiVFOMode.c:2370-2459 | Adjusting a word with in-range fields gives a word with in-range fields that unpacks to the new settings. |
| SweepSamples.GainAdjustedAsWritten | MD2017_firmware/application/source/user_interface/uiVFOMode.c:2424-2450 | The gain guard as written: an applied change moves the gain by one gain step, against the key. |
| SweepSamples.GainOvershootsAsWritten | MD2017_firmware/application/source/user_interface/uiVFOMode.c:2437-2441 | Counterexample: as written, the gain goes from 116 to 121, above VFO_SWEEP_GAIN_MAX. The corrected adjustment keeps 116. |
| SweepScan.Panned | MD2017_firmware/application/source/user_interface/uiVFOMode.c:2299-2314 | A pan keeps the graph size, and no pan keeps the graph. |
| SweepScan.Rescaled | MD2017_firmware/application/source/user_interface/uiVFOMode.c:2316-2350 | A rescale keeps the graph size, and no rescale keeps the graph. |
| SweepScan.SamplesAfter | MD2017_firmware/application/source/user_interface/uiVFOMode.c:2294-2350 | The graph after vfoSweepUpdateSamples, case by case: unchanged, panned left or right, compressed or expanded. |
| SweepScan.SampleIndexAfter | MD2017_firmware/application/source/user_interface/uiVFOMode.c:2294-2350 | Where the sweep resumes after each case: unchanged with neither; N-1-k after a pan up and 0 after a pan down; 3N/4 after zooming out; 0 after zooming in. |
| SweepScan.SweepResumesAtRevealedColumns | MD2017_firmware/application/source/user_interface/uiVFOMode.c:2294-2350 | Every column from the resume index to the end of the revealed region is zero, so the sweep refills exactly what the pan or zoom cleared. |
| SweepScan.PanUpThenDownKeys | MD2017_firmware/application/source/user_interface/uiVFOMode.c:2294-2314 | An up-key pan followed by a down-key pan of the same distance restores the graph, except the columns lost off the edge. |
| SweepScan.SweepTick | MD2017_firmware/application/source/user_interface/uiVFOMode.c:3515-3550 | A sweep tick advances the cursor by its increment while on the graph, and restarts at column 0 with increment 1 after the end. |
| SweepScan.SweepTicksAdd | MD2017_firmware/application/source/user_interface/uiVFOMode.c:3515-3550 | a ticks then b ticks is a + b ticks. |
| SweepScan.SweepRunsToEnd | MD2017_firmware/application/source/user_interface/uiVFOMode.c:3515-3550 | From any column, a normal sweep reaches the end of the graph. |
| SweepScan.SweepPassCoversGraph | MD2017_firmware/application/source/user_interface/uiVFOMode.c:3515-3550 | A pass from column 0 visits every column in order and returns to column 0 after N + 1 ticks. |
| SweepScan.SweepPrefix | MD2017_firmware/application/source/user_interface/uiVFOMode.c:3515-3550 | k ticks from column 0 reach column k. |
| Tones.TypeOf | MD2017_firmware/application/source/user_interface/uiVFOMode.c:3011 | A tone's family is the table that holds it, or none exactly when no table does. The "no tone" code has no family. |
| Tones.TypeOfTableEntry | MD2017_firmware/application/source/user_interface/uiVFOMode.c:3011 | Every entry of a family's table is classified as that family. |
| Tones.IndexOf | MD2017_firmware/application/source/user_interface/uiVFOMode.c:3036 | The index found is the first position of the tone in the table. |
| Tones.PrevType | MD2017_firmware/application/source/user_interface/uiVFOMode.c:3384 | Moving back a family is the inverse of moving on. |
| Tones.Increment | MD2017_firmware/application/source/user_interface/uiVFOMode.c:3380 | The next tone is a valid position. When the family is kept, the index advances by one modulo the table size. Staying in one family always keeps it. |
| Tones.Decrement | MD2017_firmware/application/source/user_interface/uiVFOMode.c:3384 | The previous tone is a valid position. When the family is kept, the index goes back by one modulo the table size. |
| Tones.StepsAreInverse | MD2017_firmware/application/source/user_interface/uiVFOMode.c:3378-3385 | Reversing the tone scan retraces it: a decrement undoes an increment, and the other way round. |
| Tones.ToneInterval | MD2017_firmware/application/source/user_interface/uiVFOMode.c:3050 | A tone is listened to at most SCAN_TONE_INTERVAL, exactly that for DCS, and a positive time for the first 100 CTCSS tones. |
| Tones.ToneScanStart | MD2017_firmware/application/source/user_interface/uiVFOMode.c:3010-3040 | With no tone, or a tone of another family than the scanned one, the scan starts at the first tone of the scanned family (CTCSS when all are scanned). Otherwise it starts at the tone after the current one. |
| Tones.ToneScanStartsAfterCurrent | MD2017_firmware/application/source/user_interface/uiVFOMode.c:3033-3040 | A scan started on a tone of the scanned family begins just after it, so one step back is that tone. |
| ScanLogic.DwellFloor | MD2017_firmware/application/source/user_interface/uiVFOMode.c:3576-3593 | The DMR dwell floor is at least the duplex-slow floor in slow mode, and at least one timeslot always. |
| ScanLogic.ScanDwell | MD2017_firmware/application/source/user_interface/uiVFOMode.c:3576-3593 | Analog dwells for the step time. DMR dwells for the larger of the step time and the floor. |
| ScanLogic.DwellOrdering | MD2017_firmware/application/source/user_interface/uiVFOMode.c:3576-3593 | DMR simplex dwells at least as long as any other DMR mode, and DMR at least as long as analog. |
| ScanLogic.CarrierPhase | MD2017_firmware/application/source/user_interface/uiVFOMode.c:3648-3746 | Outside the carrier window the phase is unchanged. A stop happens only for an analog carrier with scan mode "stop". A change is a short pause with one of the three short timeouts. Analog pauses exactly on a carrier, and slow DMR exactly on a slot hit. |
| ScanLogic.AudioPhase | MD2017_firmware/application/source/user_interface/uiVFOMode.c:3749-3788 | Audio while listening stops the scan in "stop" mode and pauses it for scanDelay seconds otherwise. Without it the phase is unchanged. |
| ScanLogic.PausedIgnoresCarrier | MD2017_firmware/application/source/user_interface/uiVFOMode.c:3648-3652 | A paused or short-paused scan ignores the carrier test. |
| ScanLogic.TickPhase | MD2017_firmware/application/source/user_interface/uiVFOMode.c:3648-3788 | A stop needs "stop" mode and a signal. Timeouts stay non-negative. A long pause comes only from audio and lasts scanDelay seconds. With no carrier window and no audio the phase is unchanged. |
| ScanLogic.TickPausesOnAnalogCarrier | MD2017_firmware/application/source/user_interface/uiVFOMode.c:3713-3788 | An analog carrier in the window always pauses the scan: long with audio, short without. |
| ScanLogic.NextRingIndex | MD2017_firmware/application/source/user_interface/uiVFOMode.c:1100 | The nuisance index advances round the ring, and returns to 0 exactly from the last slot. |
| ScanLogic.ClearedRing | MD2017_firmware/application/source/user_interface/uiVFOMode.c:3926-3934 | A cleared ring is well formed and lists no frequency. |
| ScanLogic.NotListedPastFree | MD2017_firmware/application/source/user_interface/uiVFOMode.c:3904-3922 | The search may stop at the first free slot: a frequency absent before it is not listed. |
| ScanLogic.MarkIsListed | MD2017_firmware/application/source/user_interface/uiVFOMode.c:1088-1104 | Marking a nuisance frequency keeps the ring well formed and lists the frequency. |
| ScanLogic.MarkKeepsListed | MD2017_firmware/application/source/user_interface/uiVFOMode.c:1088-1104 | While the ring is filling, marking keeps every listed frequency listed. |
| ScanLogic.DefaultWindowTop | MD2017_firmware/application/source/user_interface/uiVFOMode.c:3599-3618 | The default top limit is 1 MHz above the receive frequency when that is in band. Otherwise it is the start of the next band up. It is never less than 1 MHz above. |
| ScanLogic.DefaultScanWindow | MD2017_firmware/application/source/user_interface/uiVFOMode.c:3599-3618 | The default limits start at the receive frequency and end at the default top. |
| ScanLogic.DefaultWindowInBand | MD2017_firmware/application/source/user_interface/uiVFOMode.c:3599-3618 | The bottom limit is in band. The top limit is in band exactly when rx + 1 MHz is in band or a band lies above it. |
| ScanLogic.EnteredScanLimits | MD2017_firmware/application/source/user_interface/uiVFOMode.c:2141-2177 | The entered limits are ordered, and widened to one step when narrower. They are accepted exactly when both are in band. The scan refreshes on every step exactly when the window is one step wide. |
| ScanLogic.EnteredScanLimitsSymmetric | MD2017_firmware/application/source/user_interface/uiVFOMode.c:2141-2177 | Entering the limits in either order gives the same outcome. |
| ScanLogic.IntoScanLimits | MD2017_firmware/application/source/user_interface/uiVFOMode.c:3425-3437 | A receive frequency outside the limits is moved to the bottom limit, keeping the rx/tx offset. One inside is kept. With ordered limits the result lies within them. |
| ScanLogic.IntoScanLimitsSettles | MD2017_firmware/application/source/user_interface/uiVFOMode.c:3425-3437 | Moving into the scan limits a second time changes nothing. |
| ScanLogic.SteppedPair | MD2017_firmware/application/source/user_interface/uiVFOMode.c:2467-2485 | A step moves only tx when tx is selected. Otherwise it moves rx, and tx too unless the rx/tx lock holds. |
| ScanLogic.StepOutcome | MD2017_firmware/application/source/user_interface/uiVFOMode.c:2467-2507 | An in-band step is committed as stepped. An out-of-band step lands on the near edge of the next band in its direction, or is rejected. A committed receive frequency is always in band. |
| ScanLogic.StepLandsOnNearestEdge | MD2017_firmware/application/source/user_interface/uiVFOMode.c:2487-2507 | In a sorted band plan, a step into a gap lands rx and tx on the nearest in-band frequency in its direction. It is rejected only when none exists. |
| ScanLogic.UpdatedFrequency | MD2017_firmware/application/source/user_interface/uiVFOMode.c:722-761 | An entered frequency is accepted exactly when in band. A rejected one changes nothing. With tx selected it sets tx. Otherwise it sets rx and moves tx by the same offset when that stays in band. |
| ScanLogic.ScanMoveAsWritten | MD2017_firmware/application/source/user_interface/uiVFOMode.c:3858-3899 | The scan move as written: step up while rx + step <= high, and step down while rx + step >= low. Otherwise, wrap to the other limit. |
| ScanLogic.NextScanMove | MD2017_firmware/application/source/user_interface/uiVFOMode.c:3858-3899 | The corrected move: it steps down only while rx - step >= low. A step from inside the limits stays inside. Otherwise it wraps to the other limit. |
| ScanLogic.AfterScanMove | MD2017_firmware/application/source/user_interface/uiVFOMode.c:3858-3899 | A wrap sets rx to the limit with the offset kept. A step is placed by the band edge rules of stepFrequency. |
| ScanLogic.ScanStaysWithinLimits | MD2017_firmware/application/source/user_interface/uiVFOMode.c:3858-3899 | With in-band limits, a scan move from inside the limits always leaves the receive frequency inside them. |
| ScanLogic.StepWithinLimits | MD2017_firmware/application/source/user_interface/uiVFOMode.c:3863-3893 | A step landing inside in-band limits is committed within them, at a band edge if it fell in a gap. |
| ScanLogic.ScanDownLeavesWindowAsWritten | MD2017_firmware/application/source/user_interface/uiVFOMode.c:3879-3893 | Counterexample: limits 1000..2000 and step 100 take rx 1000 to 900 as written. The corrected move wraps to 2000. |
| ScanLogic.ScanKeyAction | MD2017_firmware/application/source/user_interface/uiVFOMode.c:1083-1156 | Right marks a nuisance only when paused in a frequency scan. Left reverses only outside dual watch and sweep. Exactly the up/rotary keys in a frequency scan, and the sweep keys in a sweep, pass on. |
| ScanLogic.ScanKeyRoles | MD2017_firmware/application/source/user_interface/uiVFOMode.c:1083-1156 | Any key stops dual watch. Non-sweep keys stop a sweep. SK2 with left or right stops a scan, and right stops one that is not paused. |
| ScanLogic.ToneScanKeyAction | MD2017_firmware/application/source/user_interface/uiVFOMode.c:349-383 | Left reverses the tone scan exactly on a key event without SK2. A stop needs a released key or the orange button. Otherwise the key is ignored. |
| ScanLogic.FixedRxGroupIndex | MD2017_firmware/application/source/user_interface/uiVFOMode.c:857-864 | An index past the end of a non-empty TG list is reset to 0. Any other index is kept. |
| ScanLogic.ContactToLoad | MD2017_firmware/application/source/user_interface/uiVFOMode.c:866-883 | A named group with the index in range gives its contact. Otherwise the channel's contact is used. |
| ScanLogic.FixThenLoadUsesGroup | MD2017_firmware/application/source/user_interface/uiVFOMode.c:857-883 | After the index repair, a named, non-empty group always supplies the contact. |
| VfoMode.StepCommands | MD2017_firmware/application/source/user_interface/uiVFOMode.c:2505-2516 | A rejected step sends nothing. A committed one tunes to the new pair, then resyncs the colour code unless sweeping. |
| VfoMode.Stepped | MD2017_firmware/application/source/user_interface/uiVFOMode.c:2467-2507 | A VFO keeps its record on a rejected step and takes the committed pair otherwise. |
| VfoMode.StepTarget | MD2017_firmware/application/source/user_interface/uiVFOMode.c:2467-2507 | The step target computed imperatively is the step outcome. |
| VfoMode.ClearRange | MD2017_firmware/application/source/user_interface/uiVFOMode.c:2319 | Clears the given columns and keeps the rest. |
| VfoMode.PanLeft | MD2017_firmware/application/source/user_interface/uiVFOMode.c:2299-2306 | The in-place pan up gives the left-shifted graph. |
| VfoMode.PanRight | MD2017_firmware/application/source/user_interface/uiVFOMode.c:2307-2314 | The in-place pan down gives the right-shifted graph. |
| VfoMode.Compress | MD2017_firmware/application/source/user_interface/uiVFOMode.c:2318-2334 | The in-place zoom out gives the compressed graph. |
| VfoMode.Expand | MD2017_firmware/application/source/user_interface/uiVFOMode.c:2318-2347 | The in-place zoom in gives the expanded graph. |
| VfoMode.Pan | MD2017_firmware/application/source/user_interface/uiVFOMode.c:2297-2314 | The buffer becomes the panned graph, and the index moves as a pan moves it. |
| VfoMode.Rescale | MD2017_firmware/application/source/user_interface/uiVFOMode.c:2316-2350 | The buffer becomes the rescaled graph. The index is 3N/4 after zooming out and 0 after zooming in. |
| VfoMode.VfoScreen.StepFrequency | MD2017_firmware/application/source/user_interface/uiVFOMode.c:2462-2524 | The VFOs become the stepped records, and the log gains exactly the step's commands. |
| VfoMode.VfoScreen.UpdateFrequency | MD2017_firmware/application/source/user_interface/uiVFOMode.c:722-761 | The current VFO takes the updated pair. The radio is retuned exactly when the frequency was accepted, and the VFOs are dirty. |
| VfoMode.VfoScreen.SetCurrentFreqToScanLimits | MD2017_firmware/application/source/user_interface/uiVFOMode.c:3425-3437 | The current VFO becomes IntoScanLimits of the old one, so one outside the limits lands on the bottom limit with its offset. The radio is retuned only when it lay outside them. |
| VfoMode.VfoScreen.UpdateSamples | MD2017_firmware/application/source/user_interface/uiVFOMode.c:2294-2368 | The graph and index become those after the pan and rescale. While scanning, the sweep frequency and timer are restarted and the radio retuned. |
| VfoMode.VfoScreen.SweepRetune | MD2017_firmware/application/source/user_interface/uiVFOMode.c:2362-2367 | While scanning, the sweep frequency is the column's frequency, the timer restarts and the radio is tuned there. Otherwise nothing changes. |
| VfoMode.VfoScreen.StepAndPan | MD2017_firmware/application/source/user_interface/uiVFOMode.c:2205-2210 | The VFO steps, the graph pans by the step's shift distance and the sweep retunes. |
| VfoMode.VfoScreen.StepUp | MD2017_firmware/application/source/user_interface/uiVFOMode.c:2203-2223 | An up step: by the sweep step with a pan while sweeping, by step times direction while scanning (then resuming), and by the VFO step otherwise. |
| VfoMode.VfoScreen.HandleUpKey | MD2017_firmware/application/source/user_interface/uiVFOMode.c:2187-2228 | With SK2 it selects rx outside scans and changes nothing else. Without SK2 it takes an up step, and the VFOs are dirty. |
| VfoMode.VfoScreen.StepDown | MD2017_firmware/application/source/user_interface/uiVFOMode.c:2242-2259 | A down step: by the sweep step while sweeping, with a pan when the sweep is active, and by the VFO step otherwise. |
| VfoMode.VfoScreen.HandleDownKey | MD2017_firmware/application/source/user_interface/uiVFOMode.c:2230-2261 | With SK2 it selects tx on the normal screen and changes nothing else. Without SK2 it takes a down step, and the VFOs are dirty. |
| VfoMode.VfoScreen.StoreSweepSetting | MD2017_firmware/application/source/user_interface/uiVFOMode.c:2370-2454 | The sweep settings become the adjusted ones under the corrected gain guard, and the stored word takes the adjusted word. |
| VfoMode.VfoScreen.SetSweepIncDecSetting | MD2017_firmware/application/source/user_interface/uiVFOMode.c:2370-2460 | The adjustment, under the corrected gain guard, is stored. An applied one rescales the graph for a step change and retunes the sweep. An ignored one leaves the graph and radio alone. |
| VfoMode.VfoScreen.ClearGraph | MD2017_firmware/application/source/user_interface/uiVFOMode.c:3494 | The sweep buffer is all zero. |
| VfoMode.VfoScreen.BeginSweep | MD2017_firmware/application/source/user_interface/uiVFOMode.c:3468-3490 | The scan is active and scanning, the sweep settings are unpacked from the word, and the screen is in sweep mode. |
| VfoMode.VfoScreen.SweepScanInit | MD2017_firmware/application/source/user_interface/uiVFOMode.c:3464-3505 | The sweep starts, so uiVFOModeSweepScanning (`SweepScanning`) holds with or without paused. The graph is cleared, the sweep frequency is the current column's, the timer is started and the radio is tuned there. |
| VfoMode.VfoScreen.SweepScanStep | MD2017_firmware/application/source/user_interface/uiVFOMode.c:3508-3564 | Nothing happens unless scanning with the timer expired. Then the RSSI is stored at an on-graph column, the cursor takes one sweep tick, and the radio is retuned to the new column. |
| VfoMode.VfoScreen.ClearNuisance | MD2017_firmware/application/source/user_interface/uiVFOMode.c:3926-3934 | Every slot is free, the index is 0, and no frequency is listed. |
| VfoMode.VfoScreen.IsNuisance | MD2017_firmware/application/source/user_interface/uiVFOMode.c:3904-3922 | The search answers exactly whether the frequency is listed. |
| VfoMode.VfoScreen.MarkNuisance | MD2017_firmware/application/source/user_interface/uiVFOMode.c:1095-1101 | The current frequency is written at the index, the index advances round the ring, and the scan resumes at once. The frequency is then listed. |
| VfoMode.VfoScreen.ReverseDirection | MD2017_firmware/application/source/user_interface/uiVFOMode.c:1110-1120 | The scan direction is negated. |
| VfoMode.VfoScreen.EndToneScan | MD2017_firmware/application/source/user_interface/uiVFOMode.c:682-694 | A running tone scan restores the saved receive tone and filter. Otherwise the VFOs are kept. |
| VfoMode.VfoScreen.EndScanMode | MD2017_firmware/application/source/user_interface/uiVFOMode.c:696-711 | The scan is inactive. Dual watch returns both screens to normal and restores power saving (marking the settings dirty). A sweep returns to normal and retunes to the VFO. |
| VfoMode.VfoScreen.EndDualWatch | MD2017_firmware/application/source/user_interface/uiVFOMode.c:699-705 | Both screens go back to normal, the stored power-saving level is restored, and the settings are dirty. |
| VfoMode.VfoScreen.EndSweep | MD2017_firmware/application/source/user_interface/uiVFOMode.c:706-711 | The current screen goes back to normal, the radio is tuned to the VFO and the colour code is resynced. |
| VfoMode.VfoScreen.StopScanning | MD2017_firmware/application/source/user_interface/uiVFOMode.c:678-720 | Both the tone scan and the scan are over, so uiVFOModeIsScanning (`IsScanning`) is false. The tone is restored and each scan mode's exit is applied. |
| VfoMode.VfoScreen.HandleScanKey | MD2017_firmware/application/source/user_interface/uiVFOMode.c:1083-1156 | The key's role is the scan-key action. It marks, reverses, stops or passes on with exactly that role's effect. |
| VfoMode.VfoScreen.SetDefaultScanLimits | MD2017_firmware/application/source/user_interface/uiVFOMode.c:3599-3618 | The current VFO's limits become the default window, stored as uint32, and the settings are dirty. |
| VfoMode.VfoScreen.BeginFrequencyScan | MD2017_firmware/application/source/user_interface/uiVFOMode.c:3573-3597 | The step time and dwell are those of the settings and mode. The scan is a normal step, going up with rx selected, and the screen is a scan. |
| VfoMode.VfoScreen.ScanInit | MD2017_firmware/application/source/user_interface/uiVFOMode.c:3566-3633 | During dual watch nothing changes. Otherwise the scan is prepared: unset limits take the default window, the refresh flag compares the unsigned window width with the step, and the ring is cleared. |
| VfoMode.VfoScreen.PrepareScanWindow | MD2017_firmware/application/source/user_interface/uiVFOMode.c:3599-3621 | The limits become the initial limits. The refresh flag compares the unsigned difference of the stored limits with the step. |
| VfoMode.VfoScreen.StartScanning | MD2017_firmware/application/source/user_interface/uiVFOMode.c:1160-1166 | The scan is active, so `IsScanning` holds. Outside dual watch it is a scan going up, with the receive frequency moved inside its limits and the offset kept. |
| VfoMode.VfoScreen.DualWatchSwitch | MD2017_firmware/application/source/user_interface/uiVFOMode.c:3797-3857 | Dual watch switches to the other VFO, loads it and sets its dwell. |
| VfoMode.VfoScreen.FrequencyScanStep | MD2017_firmware/application/source/user_interface/uiVFOMode.c:3858-3899 | The VFOs take the corrected scan move, with its commands logged. The VFOs are dirty exactly after a step. |
| VfoMode.VfoScreen.ResumeAfterStep | MD2017_firmware/application/source/user_interface/uiVFOMode.c:3901-3922 | The scan resumes, skipping at once past a listed nuisance frequency and dwelling otherwise. |
| VfoMode.VfoScreen.ScanExpired | MD2017_firmware/application/source/user_interface/uiVFOMode.c:3797-3922 | An expired timer switches VFO in dual watch, or takes the corrected scan move, and then resumes. With the corrected move the receive frequency stays within the limits. |
| VfoMode.VfoScreen.ScanTick | MD2017_firmware/application/source/user_interface/uiVFOMode.c:3635-3924 | One scan tick. With rx off it parks. A stop phase ends the scan, a running timer counts down, and an expired one takes the corrected scan move or switches VFO. With the corrected move the frequency stays within the limits. |
| VfoMode.VfoScreen.CountDown | MD2017_firmware/application/source/user_interface/uiVFOMode.c:3790-3793 | The phase is taken and its timeout decremented. |
| VfoMode.VfoScreen.StartDualWatch | MD2017_firmware/application/source/user_interface/uiVFOMode.c:3055-3069 | Dual watch starts on both screens with its dwell, and power saving is lowered by one level when above 1. The scan state is kept, so uiVFOModeDualWatchIsScanning (`DualWatchIsScanning`) holds exactly when it was SCANNING. |
| VfoMode.VfoScreen.SetDualWatchTiming | MD2017_firmware/application/source/user_interface/uiVFOMode.c:3057-3060 | The step time is the settings' step time, and the dwell and starting timeout are the fixed dual-watch dwell. The scan does not refresh on every step. |
| VfoMode.VfoScreen.EnterScanLimits | MD2017_firmware/application/source/user_interface/uiVFOMode.c:2141-2177 | Entered limits are stored, dirty, exactly when accepted. Accepted limits that fit 32 bits are in band and at least a step apart. |
| VfoMode.VfoScreen.StartToneScan | MD2017_firmware/application/source/user_interface/uiVFOMode.c:3006-3052 | Only on analog: it saves the tone, tunes the start tone with its interval and commands, and `IsScanning` holds. The tone state tracks the cursor. |
| VfoMode.VfoScreen.BeginToneScan | MD2017_firmware/application/source/user_interface/uiVFOMode.c:3009-3051 | The filter is set for tones and the RF amp disabled. The saved tone is kept and the tone scan is on, going up. |
| VfoMode.VfoScreen.RetuneTone | MD2017_firmware/application/source/user_interface/uiVFOMode.c:3386-3389 | The receive tone is the cursor's, sent to the radio, with that tone's interval. |
| VfoMode.VfoScreen.ToneScan | MD2017_firmware/application/source/user_interface/uiVFOMode.c:3360-3393 | Audio copies the found tone to tx and ends the tone scan. Otherwise the timer counts down, then the scan moves a tone in its direction. The tone state keeps tracking the cursor. |
| VfoMode.VfoScreen.HandleToneScanKey | MD2017_firmware/application/source/user_interface/uiVFOMode.c:349-383 | The key's role is the tone-key action. Reverse negates the direction, stop restores the tone and ends all scanning, and ignore changes nothing. |
| VfoMode.VfoScreen.CheckAndFixIndexInRxGroup | MD2017_firmware/application/source/user_interface/uiVFOMode.c:857-864 | The TG index becomes the repaired one, stored and dirty only when changed. The contact then comes from the group. |

## Left out

- Display, voice prompts, melodies, beeps, LEDs, menu navigation and APRS are not modelled. They have no effect on the scan state.
- The tick dispatcher (uiVFOMode.c:389-400, with the tone-scan call at 328-331) is not a method of its own. It only dispatches: `ScanTick` requires an active, non-sweep scan, `SweepScanStep` runs for a sweep, and `ToneScan` requires a tone scan.
- Only one part of the screen's first entry (uiVFOMode.c:231-240) is modelled: the `refreshOnEveryStep` computation, which `PrepareScanWindow` shares.
- The rx-group reload during dual watch (uiVFOMode.c:3810-3829) and the details of uiVFOModeLoadChannelData are left out. Loading a channel is a single `LoadChannel` command.
- The transceiver mode and receive DMR mode, the power-saving level, timer expiry, the RSSI, carrier and audio detection, and key events are parameters. They come from hardware.
- trx.c, settings.h, codeplug.c and the CSS helper functions are not part of this model. Their tables are values: the band table, the two step tables, the tone tables, the storage magic number and the device information.
- The storage is an oracle: whether flash initialised and whether a write succeeds are fields of the settings store.
- The settings record keeps typed fields, not its byte layout.
- The MD9600 click discriminator and the other platforms' `#if` branches are left out, because this is the MD2017 build.
- The settings store is modelled only at the record level. It has a `SaveIfNeeded` with no effect, as on MD2017, and the RD-5R rule is stated separately as `Settings.Rd5rSaveRule`.
- VfoMode.VfoScreen.StoreSweepSetting: the settingsSaveIfNeeded call (uiVFOMode.c:2454) is left out, because it has no effect on MD2017.
- uiVFOModeIsTXFocused and uiVFOModeFrequencyScanningIsActiveAndEnabled (uiVFOMode.c:673-676, 3347-3358) are left out. They only read `txSelected`, the screen mode and the stored limits.
- The screen-global statics used only for display (`scanPaused`, the prompt-announced flags) are left out.
- The scan limits `vfoScanLow` and `vfoScanHigh` are treated as uint32, as the casts in uiVFOMode.c:2164-2165 use them. Their widening difference at uiVFOMode.c:3621 is taken modulo 2^32.
- Settings.SettingsStore.LoadSettings: a bad stored record (none, or the wrong magic number) with a failing write is excluded by the precondition. There the source recurses for ever, because every read returns the same bad record. A reset of a good record is modelled with either write outcome.
- The timezone fix-up (settings.c:163-166) and the calls that only pass loaded values to drivers (language pointer, beep volume, filter level, power saving, APRS) are left out, because the core does not read them.
- ScanLogic.ContactToLoad: a negative TG-list index would index outside the group's contacts in C; the model uses the channel contact instead.
- The left key reverses the scan direction whether or not the scan is paused (uiVFOMode.c:1107-1120).
- VfoMode.VfoScreen.FrequencyScanStep: it takes the corrected down-scan move (NextScanMove), not the test of uiVFOMode.c:3881 as written. With limits 1000..2000, step 100 and rx 1000 scanning down, the model goes to 2000 where the firmware goes to 900. The as-written move is ScanLogic.ScanMoveAsWritten (see Findings).
- VfoMode.VfoScreen.ScanExpired: it steps with the corrected down-scan move, so its promise that the frequency stays within the limits holds for the corrected move only. As written, the firmware can step once or more below the bottom limit.
- VfoMode.VfoScreen.ScanTick: the same as ScanExpired. The firmware as written does not keep the frequency within the limits when scanning down.
- VfoMode.VfoScreen.StoreSweepSetting: it applies the corrected gain guard (SweepSamples.Adjusted), not the guard of uiVFOMode.c:2437-2441 as written. Raising a gain of 116 keeps 116 in the model, where the firmware stores 121. The as-written guard is SweepSamples.GainAdjustedAsWritten.
- VfoMode.VfoScreen.SetSweepIncDecSetting: it stores through StoreSweepSetting, so it has the same corrected gain guard.
- The sweep sample-index increment is zero-initialised, as a static is.

## Findings

| source | as written | input that shows it | evidently intended | confidence | as-written member | corrected member |
|---|---|---|---|---|---|---|
| MD2017_firmware/application/source/user_interface/uiVFOMode.c:3881 | scanning down steps while `rx + fStep >= low` | limits 1000..2000, step 100, rx 1000: the scan steps to 900, below the bottom limit | step down while `rx - fStep >= low`, otherwise wrap to the top limit | not executed | ScanLogic.ScanMoveAsWritten, ScanLogic.ScanDownLeavesWindowAsWritten | ScanLogic.NextScanMove, ScanLogic.ScanStaysWithinLimits |
| MD2017_firmware/application/source/user_interface/uiVFOMode.c:2437-2441 | the guard for raising the gain tests `gain < VFO_SWEEP_GAIN_MAX`, not the raised gain | gain 116 with the key that raises it: the gain becomes 121, above VFO_SWEEP_GAIN_MAX (120) | only move the gain when the result stays within VFO_SWEEP_GAIN_MIN..VFO_SWEEP_GAIN_MAX | not executed | SweepSamples.GainAdjustedAsWritten, SweepSamples.GainOvershootsAsWritten | SweepSamples.Adjusted, SweepSamples.AdjustKeepsWordInRanges |
