/** The driver state of the AFE4404 and the routines that change it. The
    module globals (the two TIA phase gains and the shadow of the
    offset-cancellation DAC register) are the fields of one object; every
    register write the driver sends over the bus is appended to its write
    log, which stands in for the bus. */
module Afe4404Driver {
  import opened Afe4404Registers
  import opened Afe4404Codec
  import opened Afe4404Settings
  import opened Afe4404WakeUp

  class Afe4404 {
    /** Resistor code of the phase-1 gain (LED1 and Ambient1 results). */
    var tiaGainPhase1: bv8
    /** Resistor code of the phase-2 gain (LED2 and LED3 results). */
    var tiaGainPhase2: bv8
    /** Shadow copy of the DAC_SETTING register. */
    var dacVal: bv32
    /** Every register write sent so far, oldest first. */
    var log: seq<Write>

    /** The phase gains are resistor codes that have an entry in the gain table. */
    ghost predicate Valid()
      reads this
    {
      tiaGainPhase1 <= 7 && tiaGainPhase2 <= 7
    }

    /** The globals start at 0 and nothing has been written yet. */
    constructor ()
      ensures tiaGainPhase1 == 0 && tiaGainPhase2 == 0 && dacVal == 0
      ensures log == []
      ensures Valid()
    {
      tiaGainPhase1, tiaGainPhase2, dacVal := 0, 0, 0;
      log := [];
    }

    /** One register write: the frame on the bus is WriteFrame(reg, data). */
    method WriteRegister(reg: bv8, data: bv32)
      modifies this
      ensures log == old(log) + [Write(reg, data)]
      ensures tiaGainPhase1 == old(tiaGainPhase1) && tiaGainPhase2 == old(tiaGainPhase2)
      ensures dacVal == old(dacVal)
    {
      log := log + [Write(reg, data)];
    }

    /** Writes the three LED currents, unmasked, to LED_CONFIG. */
    method SetLedCurrent(led1: bv8, led2: bv8, led3: bv8)
      modifies this
      ensures log == old(log) + [Write(LED_CONFIG, LedConfigWord(led1, led2, led3))]
      ensures tiaGainPhase1 == old(tiaGainPhase1) && tiaGainPhase2 == old(tiaGainPhase2)
      ensures dacVal == old(dacVal)
    {
      var val: bv32 := 0;
      val := val | (led1 as bv32 << 0);
      val := val | (led2 as bv32 << 6);
      val := val | (led3 as bv32 << 12);
      WriteRegister(LED_CONFIG, val);
    }

    /** Sets the gain of one TIA phase: channel 1 writes TIA_GAINS1 and
        records the phase-1 gain, channel 2 writes TIA_GAINS2 with the
        separate-gain bit and records the phase-2 gain, and any other channel
        does nothing. An index above 7 is replaced by 0. */
    method SetTiaGain(led: bv8, gainIndex: bv8)
      modifies this
      ensures led == 1 ==>
                tiaGainPhase1 == GainIndex(gainIndex) && tiaGainPhase2 == old(tiaGainPhase2) &&
                log == old(log) + [Write(TIA_GAINS1, TiaGainWord(gainIndex, false))]
      ensures led == 2 ==>
                tiaGainPhase2 == GainIndex(gainIndex) && tiaGainPhase1 == old(tiaGainPhase1) &&
                log == old(log) + [Write(TIA_GAINS2, TiaGainWord(gainIndex, true))]
      ensures led != 1 && led != 2 ==>
                tiaGainPhase1 == old(tiaGainPhase1) && tiaGainPhase2 == old(tiaGainPhase2) &&
                log == old(log)
      ensures dacVal == old(dacVal)
      ensures old(Valid()) ==> Valid()
    {
      var gain := if gainIndex > 7 then 0 else gainIndex;
      var val: bv32 := 0;
      val := val | (2 << 3);
      val := val | gain as bv32;
      if led == 1 {
        tiaGainPhase1 := (val & 7) as bv8;
        WriteRegister(TIA_GAINS1, val);
      } else if led == 2 {
        val := val | (1 << 15);
        tiaGainPhase2 := (val & 7) as bv8;
        WriteRegister(TIA_GAINS2, val);
      }
    }

    /** Sets one channel's offset-cancellation current: the magnitude is
        clamped to 15 and any non-zero polarity sets the polarity flag (the
        5-bit field OffsetField); the channel's slot of the DAC shadow is
        replaced in place (a channel above 3 has no slot and leaves it as it
        was), and the shadow is then written to DAC_SETTING. */
    method SetReverseCurrent(led: bv8, polarity: bv8, magnitude: bv8)
      modifies this
      ensures dacVal == ReverseCurrentDac(old(dacVal), led, polarity, magnitude)
      ensures log == old(log) + [Write(DAC_SETTING, dacVal)]
      ensures tiaGainPhase1 == old(tiaGainPhase1) && tiaGainPhase2 == old(tiaGainPhase2)
      ensures old(Valid()) ==> Valid()
    {
      var regVal := OffsetField(polarity, magnitude);
      var dac := dacVal;
      if led == 3 {
        dac := Led3Set(dac, regVal);
        ReverseCurrentLed3(dacVal, polarity, magnitude);
      } else if led == 2 {
        dac := Led2Set(dac, regVal);
        ReverseCurrentLed2(dacVal, polarity, magnitude);
      } else if led == 1 {
        dac := Led1Set(dac, regVal);
        ReverseCurrentLed1(dacVal, polarity, magnitude);
      } else if led == 0 {
        dac := Ambient1Set(dac, regVal);
        ReverseCurrentAmbient1(dacVal, polarity, magnitude);
      } else {
        ReverseCurrentNoSlot(dacVal, led, polarity, magnitude);
      }
      dacVal := dac;
      WriteRegister(DAC_SETTING, dacVal);
    }

    /** Resets the device and programs the timing engine for one pulse
        repetition period, averaging, the clock divider and the LED current,
        TIA gain and DAC defaults, in this order. */
    method WakeUp()
      modifies this
      ensures log == WakeUpLog(old(log), old(dacVal))
      ensures tiaGainPhase1 == GAIN_RES_100K && tiaGainPhase2 == GAIN_RES_10K
      ensures dacVal == WakeUpDac(old(dacVal))
      ensures Valid()
    {
      WriteRegister(DIAGNOSIS, 0x08);
      WriteRegister(SETTINGS, 0x12_4218);
      WriteRegister(PRPCT, 7812);
      WriteRegister(LED2_ST, 0);
      WriteRegister(LED2_END, 0);
      WriteRegister(SMPL_LED2_ST, 100);
      WriteRegister(SMPL_LED2_END, 398);
      WriteRegister(ADC_RST_P0_ST, 5600);
      WriteRegister(ADC_RST_P0_END, 5606);
      WriteRegister(LED2_CONV_ST, 5608);
      WriteRegister(LED2_CONV_END, 6067);
      WriteRegister(LED3LEDSTC, 400);
      WriteRegister(LED3LEDENDC, 798);
      WriteRegister(SMPL_LED3_ST, 500);
      WriteRegister(SMPL_LED3_END, 798);
      WriteRegister(ADC_RST_P1_ST, 6069);
      WriteRegister(ADC_RST_P1_END, 6075);
      WriteRegister(LED3_CONV_ST, 6077);
      WriteRegister(LED3_CONV_END, 6536);
      WriteRegister(LED1_ST, 800);
      WriteRegister(LED1_END, 1198);
      WriteRegister(SMPL_LED1_ST, 900);
      WriteRegister(SMPL_LED1_END, 1198);
      WriteRegister(ADC_RST_P2_ST, 6538);
      WriteRegister(ADC_RST_P2_END, 6544);
      WriteRegister(LED1_CONV_ST, 6546);
      WriteRegister(LED1_CONV_END, 7006);
      WriteRegister(SMPL_AMB1_ST, 1300);
      WriteRegister(SMPL_AMB1_END, 1598);
      WriteRegister(ADC_RST_P3_ST, 7008);
      WriteRegister(ADC_RST_P3_END, 7014);
      WriteRegister(AMB1_CONV_ST, 7016);
      WriteRegister(AMB1_CONV_END, 7475);
      WriteRegister(PDNCYCLESTC, 7675);
      WriteRegister(PDNCYCLEENDC, 7811);
      WriteRegister(TIM_NUMAV, 0x100 | 3);
      WriteRegister(CLKDIV_PRF, 0);
      SetLedCurrent(5, 0, 30);
      SetTiaGain(1, GAIN_RES_100K);
      SetTiaGain(2, GAIN_RES_10K);
      SetReverseCurrent(1, 1, 10);
      SetReverseCurrent(2, 0, 10);
    }

    /** The gain readCurrent divides by for result register reg: the phase-1
        gain for LED1VAL and ALED1VAL, the phase-2 gain for LED2VAL and
        LED3VAL, looked up in the gain table; None for any other register,
        for which the driver never sets a gain. While the phase gains are
        table codes the lookup always finds an entry, so readCurrent never
        reaches its zero fallback for these registers. */
    function CurrentGain(reg: bv8): (g: Option<GainLookup>)
      reads this
      ensures g.None? <==> ResultPhase(reg).None?
      ensures Valid() && g.Some? ==> g.value.Resistance?
    {
      match ResultPhase(reg)
      case None => None
      case Some(Phase1) => Some(GainResistance(tiaGainPhase1))
      case Some(Phase2) => Some(GainResistance(tiaGainPhase2))
    }
  }

  /** With the gains wakeUp sets, readCurrent divides LED1 and Ambient1
      results by the 100 kOhm gain and LED2 and LED3 results by the 10 kOhm
      gain. */
  lemma WakeUpGains(d: Afe4404)
    requires d.tiaGainPhase1 == GAIN_RES_100K && d.tiaGainPhase2 == GAIN_RES_10K
    ensures d.CurrentGain(LED1VAL) == Some(Resistance(100)) && d.CurrentGain(ALED1VAL) == Some(Resistance(100))
    ensures d.CurrentGain(LED2VAL) == Some(Resistance(10)) && d.CurrentGain(LED3VAL) == Some(Resistance(10))
  {
  }
}
