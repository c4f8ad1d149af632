/** The register words the driver's setting routines build: LED currents, the
    transimpedance gain words and the offset-cancellation DAC register, plus
    the table from gain-resistor code to resistance used when a result is
    converted to a current. Pure functions; the driver state that holds the
    results is in the driver module. */
module Afe4404Settings {
  import opened Afe4404Registers

  datatype Option<T> = None | Some(value: T)

  // ------------------------------------------------------------ LED current

  /** The LED_CONFIG word: LED1 current at bit 0, LED2 at bit 6, LED3 at bit 12.
      The inputs are not masked, so a value above 63 spills its high bits into
      the next field (and LED3's into bits 18 and 19). */
  function LedConfigWord(led1: bv8, led2: bv8, led3: bv8): (v: bv32)
    ensures v < 0x10_0000
    ensures v & 0x3F == (led1 & 0x3F) as bv32
    ensures (v >> 6) & 0x3F == (((led1 >> 6) | led2) & 0x3F) as bv32
    ensures (v >> 12) & 0x3F == (((led2 >> 6) | led3) & 0x3F) as bv32
    ensures v >> 18 == (led3 >> 6) as bv32
  {
    (led1 as bv32) | (led2 as bv32 << 6) | (led3 as bv32 << 12)
  }

  /** The three 6-bit current fields of an LED_CONFIG word. */
  function LedCurrents(v: bv32): (bv8, bv8, bv8)
  {
    ((v & 0x3F) as bv8, ((v >> 6) & 0x3F) as bv8, ((v >> 12) & 0x3F) as bv8)
  }

  /** For currents that fit their 6-bit fields the word stays within bits 0-17
      and decodes back to the three currents. */
  lemma LedConfigRoundTrip(led1: bv8, led2: bv8, led3: bv8)
    requires led1 < 0x40 && led2 < 0x40 && led3 < 0x40
    ensures LedConfigWord(led1, led2, led3) < 0x4_0000
    ensures LedCurrents(LedConfigWord(led1, led2, led3)) == (led1, led2, led3)
  {
    var v := LedConfigWord(led1, led2, led3);
    assert led1 >> 6 == 0 && led2 >> 6 == 0 && led3 >> 6 == 0;
    assert v >> 18 == 0;
  }

  /** The fields are not masked: LED1 current 64 sets the LED2 field instead. */
  lemma LedConfigUnmasked()
    ensures LedConfigWord(64, 0, 0) == LedConfigWord(0, 1, 0) == 0x40
    ensures LedCurrents(LedConfigWord(64, 0, 0)) == (0, 1, 0)
    ensures LedConfigWord(5, 0, 30) == 0x1_E005
  {
  }

  // -------------------------------------------------------------- TIA gain

  /** A gain index above 7 is replaced by 0 (the 500 kOhm code). */
  function GainIndex(g: bv8): bv8
  {
    if g > 7 then 0 else g
  }

  /** The TIA gain word: the resistor code in bits 0-2, feedback-capacitor code 2
      (10 pF) in bits 3-5, and for the phase-2 register the separate-gain enable
      in bit 15. */
  function TiaGainWord(g: bv8, separateGain: bool): (v: bv32)
    ensures v < 0x1_0000
    ensures (v & 7) as bv8 == GainIndex(g) && GainIndex(g) <= 7
    ensures (g <= 7 ==> GainIndex(g) == g) && (g > 7 ==> GainIndex(g) == 0)
    ensures (v >> 3) & 7 == GAIN_CAP_10PF as bv32
    ensures (v & 0x8000 != 0) == separateGain
    ensures v & 0x7FC0 == 0
  {
    var val: bv32 := 0;
    var val := val | (2 << 3);
    var val := val | GainIndex(g) as bv32;
    if separateGain then val | (1 << 15) else val
  }

  // ------------------------------------------------ offset-cancellation DAC

  function MagnitudeClamp(magnitude: bv8): bv8
  {
    if magnitude > 15 then 15 else magnitude
  }

  function PolarityClamp(polarity: bv8): bv8
  {
    if polarity > 1 then 1 else polarity
  }

  /** The 5-bit DAC field: the magnitude, clamped to 15, in bits 0-3 and the
      polarity flag in bit 4, set for any non-zero polarity argument. */
  function OffsetField(polarity: bv8, magnitude: bv8): (f: bv32)
    ensures f < 0x20
    ensures f & 0xF == MagnitudeClamp(magnitude) as bv32
    ensures MagnitudeClamp(magnitude) <= 15 && (magnitude <= 15 ==> MagnitudeClamp(magnitude) == magnitude)
    ensures (f & 0x10 != 0) <==> polarity != 0
  {
    var regVal := MagnitudeClamp(magnitude) as bv32;
    if PolarityClamp(polarity) == 1 then regVal | 0x10 else regVal
  }

  /** The channels with a DAC slot: 0 Ambient1, 1 LED1, 2 LED2, 3 LED3. */
  predicate HasDacSlot(led: bv8)
  {
    led <= 3
  }

  // Each channel's slot is read, cleared and written by its own functions
  // with its shift written out: the solver settles the bit-vector facts about
  // one fixed slot cheaply, and about a slot chosen by a variable it does not.
  // The functions taking a channel number dispatch to them.

  /** The LED3 bits 0-4 slot of the DAC register. */
  function Led3Slot(dac: bv32): bv32
  {
    dac & 0x1F
  }

  /** The DAC register with the Led3 slot cleared. */
  function Led3Clear(dac: bv32): bv32
  {
    dac & !0x1F
  }

  /** The DAC register with the Led3 slot replaced by f. */
  function Led3Set(dac: bv32, f: bv32): bv32
  {
    Led3Clear(dac) | f
  }

  /** Writing f into the Led3 slot stores f there and keeps every other bit. */
  lemma Led3SetGet(dac: bv32, f: bv32)
    requires f < 0x20
    ensures Led3Slot(Led3Set(dac, f)) == f
    ensures Led3Clear(Led3Set(dac, f)) == Led3Clear(dac)
  {
  }

  /** Writing a slot keeps a register within the 20 bits of the four slots. */
  lemma Led3SetBound(dac: bv32, f: bv32)
    requires f < 0x20
    ensures dac < 0x10_0000 ==> Led3Set(dac, f) < 0x10_0000
  {
  }

  /** A second write of the Led3 slot overrides the first. */
  lemma Led3SetTwice(dac: bv32, f1: bv32, f2: bv32)
    requires f1 < 0x20
    ensures Led3Set(Led3Set(dac, f1), f2) == Led3Set(dac, f2)
  {
    calc {
      Led3Set(Led3Set(dac, f1), f2);
    ==
      Led3Clear(Led3Set(dac, f1)) | f2;
    == { Led3SetGet(dac, f1); }
      Led3Clear(dac) | f2;
    ==
      Led3Set(dac, f2);
    }
  }

  /** The LED2 bits 15-19 slot of the DAC register. */
  function Led2Slot(dac: bv32): bv32
  {
    (dac >> 15) & 0x1F
  }

  /** The DAC register with the Led2 slot cleared. */
  function Led2Clear(dac: bv32): bv32
  {
    dac & !(0x1F << 15)
  }

  /** The DAC register with the Led2 slot replaced by f. */
  function Led2Set(dac: bv32, f: bv32): bv32
  {
    Led2Clear(dac) | (f << 15)
  }

  /** Writing f into the Led2 slot stores f there and keeps every other bit. */
  lemma Led2SetGet(dac: bv32, f: bv32)
    requires f < 0x20
    ensures Led2Slot(Led2Set(dac, f)) == f
    ensures Led2Clear(Led2Set(dac, f)) == Led2Clear(dac)
  {
  }

  /** Writing a slot keeps a register within the 20 bits of the four slots. */
  lemma Led2SetBound(dac: bv32, f: bv32)
    requires f < 0x20
    ensures dac < 0x10_0000 ==> Led2Set(dac, f) < 0x10_0000
  {
  }

  /** A second write of the Led2 slot overrides the first. */
  lemma Led2SetTwice(dac: bv32, f1: bv32, f2: bv32)
    requires f1 < 0x20
    ensures Led2Set(Led2Set(dac, f1), f2) == Led2Set(dac, f2)
  {
    calc {
      Led2Set(Led2Set(dac, f1), f2);
    ==
      Led2Clear(Led2Set(dac, f1)) | (f2 << 15);
    == { Led2SetGet(dac, f1); }
      Led2Clear(dac) | (f2 << 15);
    ==
      Led2Set(dac, f2);
    }
  }

  /** The LED1 bits 5-9 slot of the DAC register. */
  function Led1Slot(dac: bv32): bv32
  {
    (dac >> 5) & 0x1F
  }

  /** The DAC register with the Led1 slot cleared. */
  function Led1Clear(dac: bv32): bv32
  {
    dac & !(0x1F << 5)
  }

  /** The DAC register with the Led1 slot replaced by f. */
  function Led1Set(dac: bv32, f: bv32): bv32
  {
    Led1Clear(dac) | (f << 5)
  }

  /** Writing f into the Led1 slot stores f there and keeps every other bit. */
  lemma Led1SetGet(dac: bv32, f: bv32)
    requires f < 0x20
    ensures Led1Slot(Led1Set(dac, f)) == f
    ensures Led1Clear(Led1Set(dac, f)) == Led1Clear(dac)
  {
  }

  /** Writing a slot keeps a register within the 20 bits of the four slots. */
  lemma Led1SetBound(dac: bv32, f: bv32)
    requires f < 0x20
    ensures dac < 0x10_0000 ==> Led1Set(dac, f) < 0x10_0000
  {
  }

  /** A second write of the Led1 slot overrides the first. */
  lemma Led1SetTwice(dac: bv32, f1: bv32, f2: bv32)
    requires f1 < 0x20
    ensures Led1Set(Led1Set(dac, f1), f2) == Led1Set(dac, f2)
  {
    calc {
      Led1Set(Led1Set(dac, f1), f2);
    ==
      Led1Clear(Led1Set(dac, f1)) | (f2 << 5);
    == { Led1SetGet(dac, f1); }
      Led1Clear(dac) | (f2 << 5);
    ==
      Led1Set(dac, f2);
    }
  }

  /** The Ambient1 bits 10-14 slot of the DAC register. */
  function Ambient1Slot(dac: bv32): bv32
  {
    (dac >> 10) & 0x1F
  }

  /** The DAC register with the Ambient1 slot cleared. */
  function Ambient1Clear(dac: bv32): bv32
  {
    dac & !(0x1F << 10)
  }

  /** The DAC register with the Ambient1 slot replaced by f. */
  function Ambient1Set(dac: bv32, f: bv32): bv32
  {
    Ambient1Clear(dac) | (f << 10)
  }

  /** Writing f into the Ambient1 slot stores f there and keeps every other bit. */
  lemma Ambient1SetGet(dac: bv32, f: bv32)
    requires f < 0x20
    ensures Ambient1Slot(Ambient1Set(dac, f)) == f
    ensures Ambient1Clear(Ambient1Set(dac, f)) == Ambient1Clear(dac)
  {
  }

  /** Writing a slot keeps a register within the 20 bits of the four slots. */
  lemma Ambient1SetBound(dac: bv32, f: bv32)
    requires f < 0x20
    ensures dac < 0x10_0000 ==> Ambient1Set(dac, f) < 0x10_0000
  {
  }

  /** A second write of the Ambient1 slot overrides the first. */
  lemma Ambient1SetTwice(dac: bv32, f1: bv32, f2: bv32)
    requires f1 < 0x20
    ensures Ambient1Set(Ambient1Set(dac, f1), f2) == Ambient1Set(dac, f2)
  {
    calc {
      Ambient1Set(Ambient1Set(dac, f1), f2);
    ==
      Ambient1Clear(Ambient1Set(dac, f1)) | (f2 << 10);
    == { Ambient1SetGet(dac, f1); }
      Ambient1Clear(dac) | (f2 << 10);
    ==
      Ambient1Set(dac, f2);
    }
  }

  /** The 5-bit DAC slot of a channel. */
  function DacSlot(dac: bv32, led: bv8): bv32
    requires HasDacSlot(led)
  {
    if led == 3 then Led3Slot(dac)
    else if led == 2 then Led2Slot(dac)
    else if led == 1 then Led1Slot(dac)
    else Ambient1Slot(dac)
  }

  /** The DAC register with a channel's slot cleared: every bit the channel does not own. */
  function OutsideSlot(dac: bv32, led: bv8): bv32
    requires HasDacSlot(led)
  {
    if led == 3 then Led3Clear(dac)
    else if led == 2 then Led2Clear(dac)
    else if led == 1 then Led1Clear(dac)
    else Ambient1Clear(dac)
  }

  /** The DAC register with a channel's slot replaced by the field f: the
      read-modify-write of the source, one branch per channel. */
  function WithSlot(dac: bv32, led: bv8, f: bv32): bv32
  {
    if led == 3 then Led3Set(dac, f)
    else if led == 2 then Led2Set(dac, f)
    else if led == 1 then Led1Set(dac, f)
    else if led == 0 then Ambient1Set(dac, f)
    else dac
  }

  /** Only the channel's slot changes, and it then holds f; a channel without
      a slot changes nothing. */
  lemma WithSlotFacts(dac: bv32, led: bv8, f: bv32)
    requires f < 0x20
    ensures !HasDacSlot(led) ==> WithSlot(dac, led, f) == dac
    ensures HasDacSlot(led) ==>
              DacSlot(WithSlot(dac, led, f), led) == f &&
              OutsideSlot(WithSlot(dac, led, f), led) == OutsideSlot(dac, led)
  {
    if led == 3 {
      Led3SetGet(dac, f);
    } else if led == 2 {
      Led2SetGet(dac, f);
    } else if led == 1 {
      Led1SetGet(dac, f);
    } else if led == 0 {
      Ambient1SetGet(dac, f);
    }
  }

  // Clearing the LED1 or the LED2 slot keeps every other slot and the bits
  // above the four slots; one fact per lemma keeps each proof small.

  lemma Led1ClearKeepsLed3(dac: bv32)
    ensures Led3Slot(Led1Clear(dac)) == Led3Slot(dac)
  {
  }

  lemma Led1ClearKeepsAmbient1(dac: bv32)
    ensures Ambient1Slot(Led1Clear(dac)) == Ambient1Slot(dac)
  {
  }

  lemma Led1ClearKeepsLed2(dac: bv32)
    ensures Led2Slot(Led1Clear(dac)) == Led2Slot(dac)
  {
  }

  lemma Led1ClearKeepsHigh(dac: bv32)
    ensures Led1Clear(dac) >> 20 == dac >> 20
  {
  }

  lemma Led2ClearKeepsLed3(dac: bv32)
    ensures Led3Slot(Led2Clear(dac)) == Led3Slot(dac)
  {
  }

  lemma Led2ClearKeepsLed1(dac: bv32)
    ensures Led1Slot(Led2Clear(dac)) == Led1Slot(dac)
  {
  }

  lemma Led2ClearKeepsAmbient1(dac: bv32)
    ensures Ambient1Slot(Led2Clear(dac)) == Ambient1Slot(dac)
  {
  }

  lemma Led2ClearKeepsHigh(dac: bv32)
    ensures Led2Clear(dac) >> 20 == dac >> 20
  {
  }

  /** A DAC register is determined by its four slots and the bits above them. */
  lemma DacBySlots(x: bv32, y: bv32)
    ensures (Led3Slot(x) == Led3Slot(y) && Led1Slot(x) == Led1Slot(y) &&
             Ambient1Slot(x) == Ambient1Slot(y) && Led2Slot(x) == Led2Slot(y) &&
             x >> 20 == y >> 20) ==> x == y
  {
  }

  /** The DAC register after setting one channel's reverse current. */
  function ReverseCurrentDac(dac: bv32, led: bv8, polarity: bv8, magnitude: bv8): bv32
  {
    WithSlot(dac, led, OffsetField(polarity, magnitude))
  }

  /** The reverse-current update of each channel, and of a channel without a slot. */
  lemma ReverseCurrentLed3(dac: bv32, polarity: bv8, magnitude: bv8)
    ensures ReverseCurrentDac(dac, 3, polarity, magnitude) == Led3Set(dac, OffsetField(polarity, magnitude))
  {
  }

  lemma ReverseCurrentLed2(dac: bv32, polarity: bv8, magnitude: bv8)
    ensures ReverseCurrentDac(dac, 2, polarity, magnitude) == Led2Set(dac, OffsetField(polarity, magnitude))
  {
  }

  lemma ReverseCurrentLed1(dac: bv32, polarity: bv8, magnitude: bv8)
    ensures ReverseCurrentDac(dac, 1, polarity, magnitude) == Led1Set(dac, OffsetField(polarity, magnitude))
  {
  }

  lemma ReverseCurrentAmbient1(dac: bv32, polarity: bv8, magnitude: bv8)
    ensures ReverseCurrentDac(dac, 0, polarity, magnitude) == Ambient1Set(dac, OffsetField(polarity, magnitude))
  {
  }

  lemma ReverseCurrentNoSlot(dac: bv32, led: bv8, polarity: bv8, magnitude: bv8)
    requires !HasDacSlot(led)
    ensures ReverseCurrentDac(dac, led, polarity, magnitude) == dac
  {
  }

  /** The channel's 5-bit slot holds the clamped field and every other bit is
      kept; a channel without a slot leaves the register as it was. */
  lemma ReverseCurrentSlot(dac: bv32, led: bv8, polarity: bv8, magnitude: bv8)
    ensures var r := ReverseCurrentDac(dac, led, polarity, magnitude);
            (!HasDacSlot(led) ==> r == dac) &&
            (HasDacSlot(led) ==>
               DacSlot(r, led) == OffsetField(polarity, magnitude) &&
               OutsideSlot(r, led) == OutsideSlot(dac, led))
  {
    WithSlotFacts(dac, led, OffsetField(polarity, magnitude));
  }

  /** The DAC shadow stays within the 20 bits of the four slots. */
  lemma ReverseCurrentBound(dac: bv32, led: bv8, polarity: bv8, magnitude: bv8)
    requires dac < 0x10_0000
    ensures ReverseCurrentDac(dac, led, polarity, magnitude) < 0x10_0000
  {
  }

  /** The slots agree with the register map: each slot starts at its I_OFFDAC
      offset, its polarity flag (bit 4 of the slot) is the POL_OFFDAC bit, and
      the four slots tile bits 0-19 without overlap. */
  lemma SlotsMatchRegisterMap(dac: bv32)
    ensures I_OFFDAC_LED3 == 0 && POL_OFFDAC_LED3 == I_OFFDAC_LED3 + 4
    ensures I_OFFDAC_LED1 == 5 && POL_OFFDAC_LED1 == I_OFFDAC_LED1 + 4
    ensures I_OFFDAC_AMB1 == 10 && POL_OFFDAC_AMB1 == I_OFFDAC_AMB1 + 4
    ensures I_OFFDAC_LED2 == 15 && POL_OFFDAC_LED2 == I_OFFDAC_LED2 + 4
    ensures dac & 0xF_FFFF == DacSlot(dac, 3) | (DacSlot(dac, 1) << 5) | (DacSlot(dac, 0) << 10) | (DacSlot(dac, 2) << 15)
  {
  }

  /** Setting a channel twice keeps only the second setting. */
  lemma ReverseCurrentLastWins(dac: bv32, led: bv8, p1: bv8, m1: bv8, p2: bv8, m2: bv8)
    ensures ReverseCurrentDac(ReverseCurrentDac(dac, led, p1, m1), led, p2, m2)
            == ReverseCurrentDac(dac, led, p2, m2)
  {
    var f1, f2 := OffsetField(p1, m1), OffsetField(p2, m2);
    if led == 3 {
      Led3SetTwice(dac, f1, f2);
    } else if led == 2 {
      Led2SetTwice(dac, f1, f2);
    } else if led == 1 {
      Led1SetTwice(dac, f1, f2);
    } else if led == 0 {
      Ambient1SetTwice(dac, f1, f2);
    }
  }

  lemma ReverseCurrentExamples()
    ensures ReverseCurrentDac(0, 2, 1, 10) == 0xD_0000
    ensures ReverseCurrentDac(0, 1, 1, 10) == 0x340
    ensures ReverseCurrentDac(0, 1, 7, 200) == ReverseCurrentDac(0, 1, 1, 15) == 0x3E0
    ensures ReverseCurrentDac(0xF_FFFF, 4, 1, 10) == 0xF_FFFF
  {
  }

  // ------------------------------------------ gain selection for a current

  /** The TIA phase whose gain applies to an ADC result register. */
  datatype Phase = Phase1 | Phase2

  /** LED1 and Ambient1 results use the phase-1 gain, LED2 and LED3 results the
      phase-2 gain; no other address selects a gain. */
  function ResultPhase(reg: bv8): (p: Option<Phase>)
    ensures p.Some? ==> 0x2A <= reg <= 0x2D
    ensures p == Some(Phase1) <==> reg == LED1VAL || reg == ALED1VAL
    ensures p == Some(Phase2) <==> reg == LED2VAL || reg == LED3VAL
  {
    if reg == LED1VAL || reg == ALED1VAL then Some(Phase1)
    else if reg == LED2VAL || reg == LED3VAL then Some(Phase2)
    else None
  }

  /** The outcome of the gain-resistor switch: a resistance in kOhm, or the
      fall-through that returns zero. */
  datatype GainLookup = Resistance(kOhm: nat) | ZeroFallback

  function GainResistance(code: bv8): (g: GainLookup)
    ensures g.Resistance? <==> code <= 7
    ensures g.Resistance? ==> 10 <= g.kOhm <= 2000
  {
    if code == GAIN_RES_500K then Resistance(500)
    else if code == GAIN_RES_250K then Resistance(250)
    else if code == GAIN_RES_100K then Resistance(100)
    else if code == GAIN_RES_50K then Resistance(50)
    else if code == GAIN_RES_25K then Resistance(25)
    else if code == GAIN_RES_10K then Resistance(10)
    else if code == GAIN_RES_1M then Resistance(1000)
    else if code == GAIN_RES_2M then Resistance(2000)
    else ZeroFallback
  }

  /** The resistor code a gain word carries always has an entry in the table. */
  lemma GainWordInTable(g: bv8, separateGain: bool)
    ensures GainResistance((TiaGainWord(g, separateGain) & 7) as bv8).Resistance?
    ensures GainResistance((TiaGainWord(g, separateGain) & 7) as bv8) ==
            GainResistance(if g > 7 then GAIN_RES_500K else g)
  {
  }
}
