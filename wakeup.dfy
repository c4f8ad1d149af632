/** The initialisation sequence of the AFE4404 driver as the register writes
    it issues, block by block as the driver groups them; the register image a
    write log leaves behind; and facts about the timing profile and the DAC
    setting that wakeUp programs. */
module Afe4404WakeUp {
  import opened Afe4404Registers
  import opened Afe4404Codec
  import opened Afe4404Settings

  /** The DAC shadow after wakeUp's two reverse-current settings: LED1 with
      polarity 1 and magnitude 10, then LED2 with polarity 0 and magnitude 10. */
  function WakeUpDac(dac: bv32): bv32
  {
    ReverseCurrentDac(ReverseCurrentDac(dac, 1, 1, 10), 2, 0, 10)
  }

  // ------------------------------------------------------ the write blocks

  /** Log l followed by the writes of the software reset, the LED current range (100 mA) and the pulse
      repetition period (7812 clock cycles). */
  function ResetAndPeriod(l: seq<Write>): seq<Write>
  {
    l
    + [Write(DIAGNOSIS, 0x08)]
    + [Write(SETTINGS, 0x12_4218)]
    + [Write(PRPCT, 7812)]
  }

  /** Log l followed by the writes of the LED2 phase: the LED2 pulse (unused, left empty), its sampling
      window, ADC reset phase 0 and the LED2 conversion. */
  function Led2Phase(l: seq<Write>): seq<Write>
  {
    l
    + [Write(LED2_ST, 0)]
    + [Write(LED2_END, 0)]
    + [Write(SMPL_LED2_ST, 100)]
    + [Write(SMPL_LED2_END, 398)]
    + [Write(ADC_RST_P0_ST, 5600)]
    + [Write(ADC_RST_P0_END, 5606)]
    + [Write(LED2_CONV_ST, 5608)]
    + [Write(LED2_CONV_END, 6067)]
  }

  /** Log l followed by the writes of the LED3 phase: the LED3 pulse, its sampling window, ADC reset phase 1
      and the LED3 conversion. */
  function Led3Phase(l: seq<Write>): seq<Write>
  {
    l
    + [Write(LED3LEDSTC, 400)]
    + [Write(LED3LEDENDC, 798)]
    + [Write(SMPL_LED3_ST, 500)]
    + [Write(SMPL_LED3_END, 798)]
    + [Write(ADC_RST_P1_ST, 6069)]
    + [Write(ADC_RST_P1_END, 6075)]
    + [Write(LED3_CONV_ST, 6077)]
    + [Write(LED3_CONV_END, 6536)]
  }

  /** Log l followed by the writes of the LED1 phase: the LED1 pulse, its sampling window, ADC reset phase 2
      and the LED1 conversion. */
  function Led1Phase(l: seq<Write>): seq<Write>
  {
    l
    + [Write(LED1_ST, 800)]
    + [Write(LED1_END, 1198)]
    + [Write(SMPL_LED1_ST, 900)]
    + [Write(SMPL_LED1_END, 1198)]
    + [Write(ADC_RST_P2_ST, 6538)]
    + [Write(ADC_RST_P2_END, 6544)]
    + [Write(LED1_CONV_ST, 6546)]
    + [Write(LED1_CONV_END, 7006)]
  }

  /** Log l followed by the writes of the Ambient1 phase (no LED pulse): its sampling window, ADC reset
      phase 3 and the Ambient1 conversion. */
  function Ambient1Phase(l: seq<Write>): seq<Write>
  {
    l
    + [Write(SMPL_AMB1_ST, 1300)]
    + [Write(SMPL_AMB1_END, 1598)]
    + [Write(ADC_RST_P3_ST, 7008)]
    + [Write(ADC_RST_P3_END, 7014)]
    + [Write(AMB1_CONV_ST, 7016)]
    + [Write(AMB1_CONV_END, 7475)]
  }

  /** Log l followed by the writes of the power-down window at the end of the period. */
  function PowerDownCycle(l: seq<Write>): seq<Write>
  {
    l
    + [Write(PDNCYCLESTC, 7675)]
    + [Write(PDNCYCLEENDC, 7811)]
  }

  /** Log l followed by the writes of the timer enable with averaging of four ADC samples, and the
      clock divider (4 MHz). */
  function AveragingAndClock(l: seq<Write>): seq<Write>
  {
    l
    + [Write(TIM_NUMAV, 0x100 | 3)]
    + [Write(CLKDIV_PRF, 0)]
  }

  /** Log l followed by the writes of the LED currents (LED1 5, LED2 0, LED3 30), the TIA gains
      (100 kOhm for phase 1, 10 kOhm for phase 2) and the reverse currents of
      LED1 and LED2, starting with the DAC shadow at dac. */
  function Defaults(l: seq<Write>, dac: bv32): seq<Write>
  {
    l
    + [Write(LED_CONFIG, LedConfigWord(5, 0, 30))]
    + [Write(TIA_GAINS1, TiaGainWord(GAIN_RES_100K, false))]
    + [Write(TIA_GAINS2, TiaGainWord(GAIN_RES_10K, true))]
    + [Write(DAC_SETTING, ReverseCurrentDac(dac, 1, 1, 10))]
    + [Write(DAC_SETTING, WakeUpDac(dac))]
  }

  /** The write log after wakeUp, starting from log l with the DAC shadow at
      dac: the blocks above in the order the driver issues them. */
  function WakeUpLog(l: seq<Write>, dac: bv32): seq<Write>
  {
    Defaults(AveragingAndClock(PowerDownCycle(Ambient1Phase(Led1Phase(Led3Phase(Led2Phase(ResetAndPeriod(l))))))), dac)
  }

  /** Log b starts with log a. */
  predicate Extends(b: seq<Write>, a: seq<Write>)
  {
    |a| <= |b| && b[..|a|] == a
  }

  lemma ExtendsTransitive(c: seq<Write>, b: seq<Write>, a: seq<Write>)
    requires Extends(c, b) && Extends(b, a)
    ensures Extends(c, a)
  {
    assert c[..|a|] == c[..|b|][..|a|];
  }

  /** A write appended to a log keeps every prefix of it. */
  lemma SnocPrefix()
    ensures forall a: seq<Write>, w: Write, n: int {:trigger (a + [w])[..n]} | 0 <= n <= |a| ::
              (a + [w])[..n] == a[..n]
  {
    forall a: seq<Write>, w: Write, n: int | 0 <= n <= |a|
      ensures (a + [w])[..n] == a[..n]
    {
      assert (a + [w])[..n] == a[..n];
    }
  }

  // Each block appends its writes to the log it is given.

  lemma ResetAndPeriodExtends(l: seq<Write>)
    ensures |ResetAndPeriod(l)| == |l| + 3 && Extends(ResetAndPeriod(l), l)
  {
    SnocPrefix();
    assert l[..|l|] == l;
  }

  lemma Led2PhaseExtends(l: seq<Write>)
    ensures |Led2Phase(l)| == |l| + 8 && Extends(Led2Phase(l), l)
  {
    SnocPrefix();
    assert l[..|l|] == l;
  }

  lemma Led3PhaseExtends(l: seq<Write>)
    ensures |Led3Phase(l)| == |l| + 8 && Extends(Led3Phase(l), l)
  {
    SnocPrefix();
    assert l[..|l|] == l;
  }

  lemma Led1PhaseExtends(l: seq<Write>)
    ensures |Led1Phase(l)| == |l| + 8 && Extends(Led1Phase(l), l)
  {
    SnocPrefix();
    assert l[..|l|] == l;
  }

  lemma Ambient1PhaseExtends(l: seq<Write>)
    ensures |Ambient1Phase(l)| == |l| + 6 && Extends(Ambient1Phase(l), l)
  {
    SnocPrefix();
    assert l[..|l|] == l;
  }

  lemma PowerDownCycleExtends(l: seq<Write>)
    ensures |PowerDownCycle(l)| == |l| + 2 && Extends(PowerDownCycle(l), l)
  {
    SnocPrefix();
    assert l[..|l|] == l;
  }

  lemma AveragingAndClockExtends(l: seq<Write>)
    ensures |AveragingAndClock(l)| == |l| + 2 && Extends(AveragingAndClock(l), l)
  {
    SnocPrefix();
    assert l[..|l|] == l;
  }

  lemma DefaultsExtends(l: seq<Write>, dac: bv32)
    ensures |Defaults(l, dac)| == |l| + 5 && Extends(Defaults(l, dac), l)
  {
    SnocPrefix();
    assert l[..|l|] == l;
  }

  /** wakeUp appends 42 writes to the log and keeps the log before them; the
      first is the software reset and the last writes the final DAC shadow. */
  lemma WakeUpLogShape(l: seq<Write>, dac: bv32)
    ensures |WakeUpLog(l, dac)| == |l| + 42 && Extends(WakeUpLog(l, dac), l)
    ensures WakeUpLog(l, dac)[|l|] == Write(DIAGNOSIS, 0x08)
    ensures WakeUpLog(l, dac)[|l| + 41] == Write(DAC_SETTING, WakeUpDac(dac))
  {
    var l1 := ResetAndPeriod(l);
    var l2 := Led2Phase(l1);
    var l3 := Led3Phase(l2);
    var l4 := Led1Phase(l3);
    var l5 := Ambient1Phase(l4);
    var l6 := PowerDownCycle(l5);
    var l7 := AveragingAndClock(l6);
    var w := Defaults(l7, dac);
    ResetAndPeriodExtends(l);
    Led2PhaseExtends(l1);
    Led3PhaseExtends(l2);
    Led1PhaseExtends(l3);
    Ambient1PhaseExtends(l4);
    PowerDownCycleExtends(l5);
    AveragingAndClockExtends(l6);
    DefaultsExtends(l7, dac);
    ExtendsTransitive(l3, l2, l1);
    ExtendsTransitive(l4, l3, l1);
    ExtendsTransitive(l5, l4, l1);
    ExtendsTransitive(l6, l5, l1);
    ExtendsTransitive(l7, l6, l1);
    ExtendsTransitive(w, l7, l1);
    ExtendsTransitive(w, l1, l);
    assert w[|l|] == w[..|l1|][|l|] == l1[|l|];
  }

  // ------------------------------------------------------ register image

  /** The data last passed for register r in log, or None when log never
      writes r. The device keeps bits 0-23 of it, the bits the frame sends. */
  function RegisterValue(log: seq<Write>, r: bv8): Option<bv32>
  {
    if |log| == 0 then None
    else if log[|log| - 1].reg == r then Some(log[|log| - 1].data)
    else RegisterValue(log[..|log| - 1], r)
  }

  /** RegisterValue is None exactly when no write names r. */
  lemma {:induction false} RegisterValueNone(log: seq<Write>, r: bv8)
    ensures RegisterValue(log, r).None? <==> forall i | 0 <= i < |log| :: log[i].reg != r
  {
    if |log| > 0 {
      var n := |log| - 1;
      RegisterValueNone(log[..n], r);
      assert forall i | 0 <= i < n :: log[..n][i] == log[i];
    }
  }

  /** When RegisterValue is Some, it is the data of a write to r after which
      no write names r. */
  lemma {:induction false} RegisterValueIsLastWrite(log: seq<Write>, r: bv8)
    ensures RegisterValue(log, r).Some? ==>
              exists i | 0 <= i < |log| ::
                log[i] == Write(r, RegisterValue(log, r).value) &&
                forall j | i < j < |log| :: log[j].reg != r
  {
    if |log| > 0 {
      var n := |log| - 1;
      if log[n].reg == r {
        assert log[n] == Write(r, RegisterValue(log, r).value);
      } else {
        var init := log[..n];
        RegisterValueIsLastWrite(init, r);
        if RegisterValue(init, r).Some? {
          var i :| 0 <= i < n && init[i] == Write(r, RegisterValue(init, r).value) &&
                   forall j | i < j < n :: init[j].reg != r;
          assert forall j | i < j < n :: log[j] == init[j];
          assert log[i] == Write(r, RegisterValue(log, r).value);
        }
      }
    }
  }

  /** One more write sets its register and leaves the others as they were. */
  lemma RegisterValueSnoc(l: seq<Write>, w: Write, r: bv8)
    ensures RegisterValue(l + [w], r) == if w.reg == r then Some(w.data) else RegisterValue(l, r)
  {
    assert (l + [w])[..|l|] == l;
  }

  /** RegisterValueSnoc for every log, write and register. */
  lemma Snoc()
    ensures forall l: seq<Write>, w: Write, r: bv8 {:trigger RegisterValue(l + [w], r)} ::
              RegisterValue(l + [w], r) == if w.reg == r then Some(w.data) else RegisterValue(l, r)
  {
    forall l: seq<Write>, w: Write, r: bv8
      ensures RegisterValue(l + [w], r) == if w.reg == r then Some(w.data) else RegisterValue(l, r)
    {
      RegisterValueSnoc(l, w, r);
    }
  }

  // ------------------------------------------------------ what wakeUp programs

  /** A later setting a, when there is one, hides an earlier setting b. */
  function Over(a: Option<bv32>, b: Option<bv32>): Option<bv32>
  {
    if a.Some? then a else b
  }

  /** The value block ResetAndPeriod leaves in register r, when it writes r. */
  function ResetAndPeriodProfile(r: bv8): Option<bv32>
  {
    if r == DIAGNOSIS then Some(0x08)
    else if r == SETTINGS then Some(0x12_4218)
    else if r == PRPCT then Some(7812)
    else None
  }

  /** The value block Led2Phase leaves in register r, when it writes r. */
  function Led2PhaseProfile(r: bv8): Option<bv32>
  {
    if r == LED2_ST then Some(0)
    else if r == LED2_END then Some(0)
    else if r == SMPL_LED2_ST then Some(100)
    else if r == SMPL_LED2_END then Some(398)
    else if r == ADC_RST_P0_ST then Some(5600)
    else if r == ADC_RST_P0_END then Some(5606)
    else if r == LED2_CONV_ST then Some(5608)
    else if r == LED2_CONV_END then Some(6067)
    else None
  }

  /** The value block Led3Phase leaves in register r, when it writes r. */
  function Led3PhaseProfile(r: bv8): Option<bv32>
  {
    if r == LED3LEDSTC then Some(400)
    else if r == LED3LEDENDC then Some(798)
    else if r == SMPL_LED3_ST then Some(500)
    else if r == SMPL_LED3_END then Some(798)
    else if r == ADC_RST_P1_ST then Some(6069)
    else if r == ADC_RST_P1_END then Some(6075)
    else if r == LED3_CONV_ST then Some(6077)
    else if r == LED3_CONV_END then Some(6536)
    else None
  }

  /** The value block Led1Phase leaves in register r, when it writes r. */
  function Led1PhaseProfile(r: bv8): Option<bv32>
  {
    if r == LED1_ST then Some(800)
    else if r == LED1_END then Some(1198)
    else if r == SMPL_LED1_ST then Some(900)
    else if r == SMPL_LED1_END then Some(1198)
    else if r == ADC_RST_P2_ST then Some(6538)
    else if r == ADC_RST_P2_END then Some(6544)
    else if r == LED1_CONV_ST then Some(6546)
    else if r == LED1_CONV_END then Some(7006)
    else None
  }

  /** The value block Ambient1Phase leaves in register r, when it writes r. */
  function Ambient1PhaseProfile(r: bv8): Option<bv32>
  {
    if r == SMPL_AMB1_ST then Some(1300)
    else if r == SMPL_AMB1_END then Some(1598)
    else if r == ADC_RST_P3_ST then Some(7008)
    else if r == ADC_RST_P3_END then Some(7014)
    else if r == AMB1_CONV_ST then Some(7016)
    else if r == AMB1_CONV_END then Some(7475)
    else None
  }

  /** The value block PowerDownCycle leaves in register r, when it writes r. */
  function PowerDownCycleProfile(r: bv8): Option<bv32>
  {
    if r == PDNCYCLESTC then Some(7675)
    else if r == PDNCYCLEENDC then Some(7811)
    else None
  }

  /** The value block AveragingAndClock leaves in register r, when it writes r. */
  function AveragingAndClockProfile(r: bv8): Option<bv32>
  {
    if r == TIM_NUMAV then Some(0x100 | 3)
    else if r == CLKDIV_PRF then Some(0)
    else None
  }

  /** The value block Defaults leaves in register r, when it writes r. */
  function DefaultsProfile(r: bv8, dac: bv32): Option<bv32>
  {
    if r == LED_CONFIG then Some(LedConfigWord(5, 0, 30))
    else if r == TIA_GAINS1 then Some(TiaGainWord(GAIN_RES_100K, false))
    else if r == TIA_GAINS2 then Some(TiaGainWord(GAIN_RES_10K, true))
    else if r == DAC_SETTING then Some(WakeUpDac(dac))
    else None
  }

  /** The value wakeUp leaves in register r, when it writes r: the profiles
      of its blocks, each later block over the earlier ones. */
  function WakeUpProfile(r: bv8, dac: bv32): Option<bv32>
  {
    Over(DefaultsProfile(r, dac), Over(AveragingAndClockProfile(r), Over(PowerDownCycleProfile(r),
    Over(Ambient1PhaseProfile(r), Over(Led1PhaseProfile(r), Over(Led3PhaseProfile(r),
    Over(Led2PhaseProfile(r), ResetAndPeriodProfile(r))))))))
  }

  // Each block sets the registers of its profile and leaves the others alone.

  lemma ResetAndPeriodImage(l: seq<Write>, r: bv8)
    ensures RegisterValue(ResetAndPeriod(l), r) == Over(ResetAndPeriodProfile(r), RegisterValue(l, r))
  {
    Snoc();
  }

  lemma Led2PhaseImage(l: seq<Write>, r: bv8)
    ensures RegisterValue(Led2Phase(l), r) == Over(Led2PhaseProfile(r), RegisterValue(l, r))
  {
    Snoc();
  }

  lemma Led3PhaseImage(l: seq<Write>, r: bv8)
    ensures RegisterValue(Led3Phase(l), r) == Over(Led3PhaseProfile(r), RegisterValue(l, r))
  {
    Snoc();
  }

  lemma Led1PhaseImage(l: seq<Write>, r: bv8)
    ensures RegisterValue(Led1Phase(l), r) == Over(Led1PhaseProfile(r), RegisterValue(l, r))
  {
    Snoc();
  }

  lemma Ambient1PhaseImage(l: seq<Write>, r: bv8)
    ensures RegisterValue(Ambient1Phase(l), r) == Over(Ambient1PhaseProfile(r), RegisterValue(l, r))
  {
    Snoc();
  }

  lemma PowerDownCycleImage(l: seq<Write>, r: bv8)
    ensures RegisterValue(PowerDownCycle(l), r) == Over(PowerDownCycleProfile(r), RegisterValue(l, r))
  {
    Snoc();
  }

  lemma AveragingAndClockImage(l: seq<Write>, r: bv8)
    ensures RegisterValue(AveragingAndClock(l), r) == Over(AveragingAndClockProfile(r), RegisterValue(l, r))
  {
    Snoc();
  }

  lemma DefaultsImage(l: seq<Write>, dac: bv32, r: bv8)
    ensures RegisterValue(Defaults(l, dac), r) == Over(DefaultsProfile(r, dac), RegisterValue(l, r))
  {
    Snoc();
  }

  /** After wakeUp every register it writes holds wakeUp's value for it, and
      every other register holds what it held before. */
  lemma WakeUpImage(l: seq<Write>, dac: bv32, r: bv8)
    ensures RegisterValue(WakeUpLog(l, dac), r) == Over(WakeUpProfile(r, dac), RegisterValue(l, r))
  {
    var l1 := ResetAndPeriod(l);
    var l2 := Led2Phase(l1);
    var l3 := Led3Phase(l2);
    var l4 := Led1Phase(l3);
    var l5 := Ambient1Phase(l4);
    var l6 := PowerDownCycle(l5);
    var l7 := AveragingAndClock(l6);
    DefaultsImage(l7, dac, r);
    AveragingAndClockImage(l6, r);
    PowerDownCycleImage(l5, r);
    Ambient1PhaseImage(l4, r);
    Led1PhaseImage(l3, r);
    Led3PhaseImage(l2, r);
    Led2PhaseImage(l1, r);
    ResetAndPeriodImage(l, r);
  }

  // No later block writes a register of an earlier one, so the value a block
  // writes is the value wakeUp leaves.

  lemma ResetAndPeriodFinal(dac: bv32, r: bv8)
    ensures ResetAndPeriodProfile(r).Some? ==> WakeUpProfile(r, dac) == ResetAndPeriodProfile(r)
  {
  }

  lemma Led2PhaseFinal(dac: bv32, r: bv8)
    ensures Led2PhaseProfile(r).Some? ==> WakeUpProfile(r, dac) == Led2PhaseProfile(r)
  {
  }

  lemma Led3PhaseFinal(dac: bv32, r: bv8)
    ensures Led3PhaseProfile(r).Some? ==> WakeUpProfile(r, dac) == Led3PhaseProfile(r)
  {
  }

  lemma Led1PhaseFinal(dac: bv32, r: bv8)
    ensures Led1PhaseProfile(r).Some? ==> WakeUpProfile(r, dac) == Led1PhaseProfile(r)
  {
  }

  lemma Ambient1PhaseFinal(dac: bv32, r: bv8)
    ensures Ambient1PhaseProfile(r).Some? ==> WakeUpProfile(r, dac) == Ambient1PhaseProfile(r)
  {
  }

  lemma PowerDownCycleFinal(dac: bv32, r: bv8)
    ensures PowerDownCycleProfile(r).Some? ==> WakeUpProfile(r, dac) == PowerDownCycleProfile(r)
  {
  }

  lemma AveragingAndClockFinal(dac: bv32, r: bv8)
    ensures AveragingAndClockProfile(r).Some? ==> WakeUpProfile(r, dac) == AveragingAndClockProfile(r)
  {
  }

  lemma DefaultsFinal(dac: bv32, r: bv8)
    ensures DefaultsProfile(r, dac).Some? ==> WakeUpProfile(r, dac) == DefaultsProfile(r, dac)
  {
  }

  // ------------------------------------------------------ timing profile

  /** Both settings are present and the first is no larger than the second. */
  predicate NotAfter(a: Option<bv32>, b: Option<bv32>)
  {
    a.Some? && b.Some? && a.value <= b.value
  }

  /** Both settings are present and the first is smaller than the second. */
  predicate Before(a: Option<bv32>, b: Option<bv32>)
  {
    a.Some? && b.Some? && a.value < b.value
  }

  /** wakeUp resets the device and sets a period of 7812 clock cycles. */
  lemma WakeUpResetAndPeriod()
    ensures ResetAndPeriodProfile(DIAGNOSIS) == Some(0x08)
    ensures ResetAndPeriodProfile(PRPCT) == Some(7812)
  {
  }

  /** The LED2 windows start no later than they end and end inside the period;
      ADC reset phase 0 and the LED2 sampling both end before the LED2
      conversion starts. */
  lemma Led2PhaseTiming()
    ensures NotAfter(Led2PhaseProfile(LED2_ST), Led2PhaseProfile(LED2_END)) && Before(Led2PhaseProfile(LED2_END), ResetAndPeriodProfile(PRPCT))
    ensures NotAfter(Led2PhaseProfile(SMPL_LED2_ST), Led2PhaseProfile(SMPL_LED2_END)) && Before(Led2PhaseProfile(SMPL_LED2_END), ResetAndPeriodProfile(PRPCT))
    ensures NotAfter(Led2PhaseProfile(ADC_RST_P0_ST), Led2PhaseProfile(ADC_RST_P0_END)) && Before(Led2PhaseProfile(ADC_RST_P0_END), ResetAndPeriodProfile(PRPCT))
    ensures NotAfter(Led2PhaseProfile(LED2_CONV_ST), Led2PhaseProfile(LED2_CONV_END)) && Before(Led2PhaseProfile(LED2_CONV_END), ResetAndPeriodProfile(PRPCT))
    ensures Before(Led2PhaseProfile(ADC_RST_P0_END), Led2PhaseProfile(LED2_CONV_ST))
    ensures Before(Led2PhaseProfile(SMPL_LED2_END), Led2PhaseProfile(LED2_CONV_ST))
  {
  }

  /** The LED3 windows start no later than they end and end inside the period;
      sampling lies inside the LED3 pulse; ADC reset phase 1 starts after the
      LED2 conversion and ends, like the sampling, before the LED3 conversion
      starts. */
  lemma Led3PhaseTiming()
    ensures NotAfter(Led3PhaseProfile(LED3LEDSTC), Led3PhaseProfile(LED3LEDENDC)) && Before(Led3PhaseProfile(LED3LEDENDC), ResetAndPeriodProfile(PRPCT))
    ensures NotAfter(Led3PhaseProfile(SMPL_LED3_ST), Led3PhaseProfile(SMPL_LED3_END)) && Before(Led3PhaseProfile(SMPL_LED3_END), ResetAndPeriodProfile(PRPCT))
    ensures NotAfter(Led3PhaseProfile(ADC_RST_P1_ST), Led3PhaseProfile(ADC_RST_P1_END)) && Before(Led3PhaseProfile(ADC_RST_P1_END), ResetAndPeriodProfile(PRPCT))
    ensures NotAfter(Led3PhaseProfile(LED3_CONV_ST), Led3PhaseProfile(LED3_CONV_END)) && Before(Led3PhaseProfile(LED3_CONV_END), ResetAndPeriodProfile(PRPCT))
    ensures NotAfter(Led3PhaseProfile(LED3LEDSTC), Led3PhaseProfile(SMPL_LED3_ST)) && NotAfter(Led3PhaseProfile(SMPL_LED3_END), Led3PhaseProfile(LED3LEDENDC))
    ensures Before(Led2PhaseProfile(LED2_CONV_END), Led3PhaseProfile(ADC_RST_P1_ST))
    ensures Before(Led3PhaseProfile(ADC_RST_P1_END), Led3PhaseProfile(LED3_CONV_ST))
    ensures Before(Led3PhaseProfile(SMPL_LED3_END), Led3PhaseProfile(LED3_CONV_ST))
  {
  }

  /** The LED1 windows start no later than they end and end inside the period;
      sampling lies inside the LED1 pulse; ADC reset phase 2 starts after the
      LED3 conversion and ends, like the sampling, before the LED1 conversion
      starts. */
  lemma Led1PhaseTiming()
    ensures NotAfter(Led1PhaseProfile(LED1_ST), Led1PhaseProfile(LED1_END)) && Before(Led1PhaseProfile(LED1_END), ResetAndPeriodProfile(PRPCT))
    ensures NotAfter(Led1PhaseProfile(SMPL_LED1_ST), Led1PhaseProfile(SMPL_LED1_END)) && Before(Led1PhaseProfile(SMPL_LED1_END), ResetAndPeriodProfile(PRPCT))
    ensures NotAfter(Led1PhaseProfile(ADC_RST_P2_ST), Led1PhaseProfile(ADC_RST_P2_END)) && Before(Led1PhaseProfile(ADC_RST_P2_END), ResetAndPeriodProfile(PRPCT))
    ensures NotAfter(Led1PhaseProfile(LED1_CONV_ST), Led1PhaseProfile(LED1_CONV_END)) && Before(Led1PhaseProfile(LED1_CONV_END), ResetAndPeriodProfile(PRPCT))
    ensures NotAfter(Led1PhaseProfile(LED1_ST), Led1PhaseProfile(SMPL_LED1_ST)) && NotAfter(Led1PhaseProfile(SMPL_LED1_END), Led1PhaseProfile(LED1_END))
    ensures Before(Led3PhaseProfile(LED3_CONV_END), Led1PhaseProfile(ADC_RST_P2_ST))
    ensures Before(Led1PhaseProfile(ADC_RST_P2_END), Led1PhaseProfile(LED1_CONV_ST))
    ensures Before(Led1PhaseProfile(SMPL_LED1_END), Led1PhaseProfile(LED1_CONV_ST))
  {
  }

  /** The Ambient1 windows start no later than they end and end inside the
      period; ADC reset phase 3 starts after the LED1 conversion and ends, like
      the sampling, before the Ambient1 conversion starts. */
  lemma Ambient1PhaseTiming()
    ensures NotAfter(Ambient1PhaseProfile(SMPL_AMB1_ST), Ambient1PhaseProfile(SMPL_AMB1_END)) && Before(Ambient1PhaseProfile(SMPL_AMB1_END), ResetAndPeriodProfile(PRPCT))
    ensures NotAfter(Ambient1PhaseProfile(ADC_RST_P3_ST), Ambient1PhaseProfile(ADC_RST_P3_END)) && Before(Ambient1PhaseProfile(ADC_RST_P3_END), ResetAndPeriodProfile(PRPCT))
    ensures NotAfter(Ambient1PhaseProfile(AMB1_CONV_ST), Ambient1PhaseProfile(AMB1_CONV_END)) && Before(Ambient1PhaseProfile(AMB1_CONV_END), ResetAndPeriodProfile(PRPCT))
    ensures Before(Led1PhaseProfile(LED1_CONV_END), Ambient1PhaseProfile(ADC_RST_P3_ST))
    ensures Before(Ambient1PhaseProfile(ADC_RST_P3_END), Ambient1PhaseProfile(AMB1_CONV_ST))
    ensures Before(Ambient1PhaseProfile(SMPL_AMB1_END), Ambient1PhaseProfile(AMB1_CONV_ST))
  {
  }

  /** The power-down window starts after the last conversion, the Ambient1
      one, and ends inside the period. */
  lemma PowerDownCycleTiming()
    ensures NotAfter(PowerDownCycleProfile(PDNCYCLESTC), PowerDownCycleProfile(PDNCYCLEENDC)) && Before(PowerDownCycleProfile(PDNCYCLEENDC), ResetAndPeriodProfile(PRPCT))
    ensures Before(Ambient1PhaseProfile(AMB1_CONV_END), PowerDownCycleProfile(PDNCYCLESTC))
  {
  }

  // The register image of the whole wakeUp log, block by block: wakeUp
  // leaves in each register of a block the value that block writes.

  lemma ResetAndPeriodInLog(l: seq<Write>, dac: bv32, r: bv8)
    ensures ResetAndPeriodProfile(r).Some? ==> RegisterValue(WakeUpLog(l, dac), r) == ResetAndPeriodProfile(r)
  {
    WakeUpImage(l, dac, r);
    ResetAndPeriodFinal(dac, r);
  }

  lemma Led2PhaseInLog(l: seq<Write>, dac: bv32, r: bv8)
    ensures Led2PhaseProfile(r).Some? ==> RegisterValue(WakeUpLog(l, dac), r) == Led2PhaseProfile(r)
  {
    WakeUpImage(l, dac, r);
    Led2PhaseFinal(dac, r);
  }

  lemma Led3PhaseInLog(l: seq<Write>, dac: bv32, r: bv8)
    ensures Led3PhaseProfile(r).Some? ==> RegisterValue(WakeUpLog(l, dac), r) == Led3PhaseProfile(r)
  {
    WakeUpImage(l, dac, r);
    Led3PhaseFinal(dac, r);
  }

  lemma Led1PhaseInLog(l: seq<Write>, dac: bv32, r: bv8)
    ensures Led1PhaseProfile(r).Some? ==> RegisterValue(WakeUpLog(l, dac), r) == Led1PhaseProfile(r)
  {
    WakeUpImage(l, dac, r);
    Led1PhaseFinal(dac, r);
  }

  lemma Ambient1PhaseInLog(l: seq<Write>, dac: bv32, r: bv8)
    ensures Ambient1PhaseProfile(r).Some? ==> RegisterValue(WakeUpLog(l, dac), r) == Ambient1PhaseProfile(r)
  {
    WakeUpImage(l, dac, r);
    Ambient1PhaseFinal(dac, r);
  }

  lemma PowerDownCycleInLog(l: seq<Write>, dac: bv32, r: bv8)
    ensures PowerDownCycleProfile(r).Some? ==> RegisterValue(WakeUpLog(l, dac), r) == PowerDownCycleProfile(r)
  {
    WakeUpImage(l, dac, r);
    PowerDownCycleFinal(dac, r);
  }

  lemma AveragingAndClockInLog(l: seq<Write>, dac: bv32, r: bv8)
    ensures AveragingAndClockProfile(r).Some? ==> RegisterValue(WakeUpLog(l, dac), r) == AveragingAndClockProfile(r)
  {
    WakeUpImage(l, dac, r);
    AveragingAndClockFinal(dac, r);
  }

  lemma DefaultsInLog(l: seq<Write>, dac: bv32, r: bv8)
    ensures DefaultsProfile(r, dac).Some? ==> RegisterValue(WakeUpLog(l, dac), r) == DefaultsProfile(r, dac)
  {
    WakeUpImage(l, dac, r);
    DefaultsFinal(dac, r);
  }

  // The conversion chain in the registers wakeUp leaves behind, from any log
  // and any DAC shadow: each ADC reset phase ends before its conversion
  // starts, and each conversion ends before the next reset phase starts (the
  // last one before the period ends). One lemma per phase keeps each small.

  lemma WakeUpLogLed2Conversion(l: seq<Write>, dac: bv32)
    ensures Before(RegisterValue(WakeUpLog(l, dac), ADC_RST_P0_END), RegisterValue(WakeUpLog(l, dac), LED2_CONV_ST))
    ensures Before(RegisterValue(WakeUpLog(l, dac), LED2_CONV_END), RegisterValue(WakeUpLog(l, dac), ADC_RST_P1_ST))
  {
    Led2PhaseInLog(l, dac, ADC_RST_P0_END);
    Led2PhaseInLog(l, dac, LED2_CONV_ST);
    Led2PhaseInLog(l, dac, LED2_CONV_END);
    Led3PhaseInLog(l, dac, ADC_RST_P1_ST);
  }

  lemma WakeUpLogLed3Conversion(l: seq<Write>, dac: bv32)
    ensures Before(RegisterValue(WakeUpLog(l, dac), ADC_RST_P1_END), RegisterValue(WakeUpLog(l, dac), LED3_CONV_ST))
    ensures Before(RegisterValue(WakeUpLog(l, dac), LED3_CONV_END), RegisterValue(WakeUpLog(l, dac), ADC_RST_P2_ST))
  {
    Led3PhaseInLog(l, dac, ADC_RST_P1_END);
    Led3PhaseInLog(l, dac, LED3_CONV_ST);
    Led3PhaseInLog(l, dac, LED3_CONV_END);
    Led1PhaseInLog(l, dac, ADC_RST_P2_ST);
  }

  lemma WakeUpLogLed1Conversion(l: seq<Write>, dac: bv32)
    ensures Before(RegisterValue(WakeUpLog(l, dac), ADC_RST_P2_END), RegisterValue(WakeUpLog(l, dac), LED1_CONV_ST))
    ensures Before(RegisterValue(WakeUpLog(l, dac), LED1_CONV_END), RegisterValue(WakeUpLog(l, dac), ADC_RST_P3_ST))
  {
    Led1PhaseInLog(l, dac, ADC_RST_P2_END);
    Led1PhaseInLog(l, dac, LED1_CONV_ST);
    Led1PhaseInLog(l, dac, LED1_CONV_END);
    Ambient1PhaseInLog(l, dac, ADC_RST_P3_ST);
  }

  lemma WakeUpLogAmbient1Conversion(l: seq<Write>, dac: bv32)
    ensures Before(RegisterValue(WakeUpLog(l, dac), ADC_RST_P3_END), RegisterValue(WakeUpLog(l, dac), AMB1_CONV_ST))
    ensures Before(RegisterValue(WakeUpLog(l, dac), AMB1_CONV_END), RegisterValue(WakeUpLog(l, dac), PRPCT))
  {
    Ambient1PhaseInLog(l, dac, ADC_RST_P3_END);
    Ambient1PhaseInLog(l, dac, AMB1_CONV_ST);
    Ambient1PhaseInLog(l, dac, AMB1_CONV_END);
    ResetAndPeriodInLog(l, dac, PRPCT);
  }

  // ------------------------------------------------------ DAC setting

  lemma WakeUpDacForm(dac: bv32)
    ensures WakeUpDac(dac) == Led2Set(Led1Set(dac, 26), 10)
  {
    ReverseCurrentLed1(dac, 1, 10);
    ReverseCurrentLed2(ReverseCurrentDac(dac, 1, 1, 10), 0, 10);
  }

  /** wakeUp leaves 26 (magnitude 10, polarity flag set) in the LED1 slot and
      10 in the LED2 slot, and keeps the LED3 and Ambient1 slots and the bits
      above the slots. */
  lemma WakeUpDacSlots(dac: bv32)
    ensures Led1Slot(WakeUpDac(dac)) == 26
    ensures Led2Slot(WakeUpDac(dac)) == 10
    ensures Led3Slot(WakeUpDac(dac)) == Led3Slot(dac)
    ensures Ambient1Slot(WakeUpDac(dac)) == Ambient1Slot(dac)
    ensures WakeUpDac(dac) >> 20 == dac >> 20
  {
    var d1 := Led1Set(dac, 26);
    var d2 := Led2Set(d1, 10);
    WakeUpDacForm(dac);
    Led1SetGet(dac, 26);
    Led2SetGet(d1, 10);
    Led2ClearKeepsLed1(d1); Led2ClearKeepsLed1(d2);
    Led2ClearKeepsLed3(d1); Led2ClearKeepsLed3(d2);
    Led2ClearKeepsAmbient1(d1); Led2ClearKeepsAmbient1(d2);
    Led2ClearKeepsHigh(d1); Led2ClearKeepsHigh(d2);
    Led1ClearKeepsLed3(dac); Led1ClearKeepsLed3(d1);
    Led1ClearKeepsAmbient1(dac); Led1ClearKeepsAmbient1(d1);
    Led1ClearKeepsHigh(dac); Led1ClearKeepsHigh(d1);
  }

  /** A second wakeUp leaves the DAC shadow as the first left it. */
  lemma WakeUpDacIdempotent(dac: bv32)
    ensures WakeUpDac(WakeUpDac(dac)) == WakeUpDac(dac)
  {
    WakeUpDacSlots(dac);
    WakeUpDacSlots(WakeUpDac(dac));
    DacBySlots(WakeUpDac(WakeUpDac(dac)), WakeUpDac(dac));
  }

  /** Running wakeUp a second time, from the DAC shadow the first run left,
      leaves every register as the first run left it. */
  lemma WakeUpTwice(l: seq<Write>, dac: bv32, r: bv8)
    ensures RegisterValue(WakeUpLog(WakeUpLog(l, dac), WakeUpDac(dac)), r) == RegisterValue(WakeUpLog(l, dac), r)
  {
    WakeUpImage(WakeUpLog(l, dac), WakeUpDac(dac), r);
    WakeUpImage(l, dac, r);
    WakeUpDacIdempotent(dac);
    assert DefaultsProfile(r, WakeUpDac(dac)) == DefaultsProfile(r, dac);
  }
}
