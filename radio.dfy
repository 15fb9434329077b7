/**
 * The radio hardware as the VFO screen sees it. Calls into the transceiver
 * and the HR-C6000 DMR chip are recorded as commands in an append-only log,
 * from which the model's contracts read what the firmware told the radio.
 */
module Radio {

  datatype RadioMode = Analog | Digital

  /** DMR_MODE_AUTO, DMR_MODE_DMO (simplex) and DMR_MODE_RMO (repeater). */
  datatype DmrMode = DmrAuto | DmrDmo | DmrRmo

  datatype Command =
    | SetFrequency(rx: int, tx: int, dmrMode: DmrMode)   // trxSetFrequency
    | ClearColorCodeSync                               // HRC6000ClearColorCodeSynchronisation
    | SetRxCss(tone: int)                              // trxSetRxCSS
    | RxAndTxOff                                       // trxRxAndTxOff
    | RxOn                                             // trxRxOn
    | DisableRfAudioAmp                                // disableAudioAmp(AUDIO_AMP_MODE_RF)
    | SetAnalogFilterCss                               // trxSetAnalogFilterLevel(ANALOG_FILTER_CSS)
    | RestoreAnalogFilter                              // trxSetAnalogFilterLevel(analogFilterLevel)
    | SetPowerSavingLevel(level: int)                  // rxPowerSavingSetLevel
    | LoadChannel(vfo: int)                            // uiVFOModeLoadChannelData
}
