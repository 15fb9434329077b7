/**
 * Codeplug records used by the VFO screen: the VFO channel, the receive
 * group (TG list) and the device-information band limits.
 */
module Codeplug {
  import opened Radio

  /** CODEPLUG_CSS_TONE_NONE: no CTCSS/DCS tone. */
  const CODEPLUG_CSS_TONE_NONE: int := 0xFFFF

  /**
   * A VFO channel (struct_codeplugChannel_t, reduced to the fields the core
   * reads or writes). The upper nibble of VFOflag5 selects the VFO step.
   */
  datatype Channel = Channel(
    rxFreq: int,
    txFreq: int,
    chMode: RadioMode,
    rxTone: int,
    txTone: int,
    sql: int,
    vfoFlag5: bv8,
    forceDmo: bool,        // CHANNEL_FLAG_FORCE_DMO
    libreDmrPower: int,
    contact: int)

  /** The VFO step index, VFOflag5 >> 4, always one of 0..15. */
  function StepIndex(ch: Channel): (r: nat)
    ensures r < 16
  {
    (ch.vfoFlag5 >> 4) as nat
  }

  /** The DMR mode passed to trxSetFrequency for this channel. */
  function DmrModeFor(ch: Channel): (m: DmrMode)
    ensures m == DmrDmo <==> ch.chMode == Digital && ch.forceDmo
    ensures m != DmrRmo
  {
    if ch.chMode == Digital && ch.forceDmo then DmrDmo else DmrAuto
  }

  /**
   * A receive group as loaded into currentRxGroupData: hasName is
   * name[0] != 0, and numTGs is NOT_IN_CODEPLUG_numTGsInGroup (-1 when
   * the record was cleared to 0xFF).
   */
  datatype RxGroup = RxGroup(hasName: bool, contacts: seq<int>, numTGs: int)

  /** Band limits stored in the device-information block, in MHz. */
  datatype DeviceInfo = DeviceInfo(minVHFFreq: int, maxVHFFreq: int, minUHFFreq: int, maxUHFFreq: int)
}
