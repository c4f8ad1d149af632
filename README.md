# AFE4404 driver model

A Dafny model of the register-level driver for the TI AFE4404 optical
front-end (`afe4404.c`). The model covers these parts of the driver:

- **The register codec** (`codec.dfy`, module `Afe4404Codec`).
  - A register write becomes a 4-byte frame: the address, then bits 23-16, 15-8 and 7-0 of the value.
  - The 32-bit read decodes three received bytes. For the ADC result registers 0x2A-0x2F it sign-extends the chip's 22-bit two's-complement code.
  - The 16-bit read takes bits 6-21 of the received value as an `int16_t`.
  - Both reads are pure functions of the address and the three received bytes.
- **The setting words** (`settings.dfy`, module `Afe4404Settings`).
  - The unmasked LED_CONFIG packing.
  - The TIA gain word with its index clamp.
  - The 5-bit offset-cancellation DAC field with its clamps.
  - The four disjoint DAC slots and the read-modify-write of one slot.
  - The choice of phase gain for an ADC result register, and the gain-resistor table.
- **The wakeUp sequence** (`wakeup.dfy`, module `Afe4404WakeUp`).
  - The 42 register writes, grouped block by block as the driver groups them.
  - The register image a write log leaves: the last value written to each register.
  - The timing-profile facts, the DAC defaults, and the fact that a second wakeUp changes nothing.
- **The driver state** (`driver.dfy`, module `Afe4404Driver`).
  - A class `Afe4404` holds the module globals `TIA_GAIN_PHASE1`, `TIA_GAIN_PHASE2` and `dac_val`, plus the log of every register write sent so far. The log stands in for the bus.
  - The class has one method per state-changing routine: write, setLEDCurrent, setTiaGain, setReverseCurrent and wakeUp.
  - It also has the gain selection of readCurrent.
- **The register map** (`registers.dfy`, module `Afe4404Registers`): the register constants.

Each method is specified in terms of the functions of the settings and
wakeUp modules: the new shadow register, the new gains and the appended
writes.

The timing-profile facts are stated on the profile of each wakeUp block
(`Led2PhaseProfile` and the others): the value that block writes to each
register. Two families of lemmas connect these profiles to the write log
that `WakeUp` produces:

- `WakeUpImage`: after wakeUp, every register wakeUp writes holds the profile's value, and every other register is as it was.
- The `*Final` lemmas: no later block overwrites a register written by an earlier block.
- The `*InLog` lemmas put the two together: for every register of a block, `RegisterValue(WakeUpLog(l, dac), r)` is the value that block writes, from any log and any DAC shadow.

The `WakeUpLog*Conversion` lemmas state the conversion chain directly over the registers wakeUp leaves behind.

Decisions where the code is easy to misread:

- The reverse-current polarity flag is 0x10 (afe4404.c:315), the top bit of a 5-bit slot. The register map at afe4404.c:187-194 agrees: each POL_OFFDAC bit is its I_OFFDAC offset plus 4, and the slots start 5 bits apart.
- The 16-bit read returns `(retVal >> 6) & 0xffff` as an `int16_t` (afe4404.c:258, 270), so bit 21 of the received value becomes the sign. `Read16IsCoarseAdc` shows that on the chip's codes the 16-bit read is the 32-bit read divided by 64, rounded down.
- setLEDCurrent does not mask or clamp its arguments (afe4404.c:277-279). An argument above 63 spills into the next field.

Integer widths are explicit:

- Register values and the DAC shadow are `bv32`, addresses and arguments `bv8`.
- Converting an out-of-range value to `int32_t` or `int16_t` is implementation-defined in C (section 6.3.1.3 of ISO/IEC 9899:2011). `ToInt32` and `ToInt16` fix the modulo 2^32 and 2^16 (two's-complement) conversion that GCC and Clang document. The driver relies on that conversion at afe4404.c:252 and afe4404.c:270.
- The 16-bit `val` of setTiaGain always fits: `TiaGainWord` is below 2^16.
- The write log keeps the full 32-bit value passed to each write, while the frame sends only bits 0-23. From the initial state every value the driver writes is below 2^24: the DAC shadow stays within bits 0-19 (`ReverseCurrentBound`).

## Model

| member | source | states |
|---|---|---|
| Afe4404Codec.Assemble | afe4404.c:243-245 | the shift-and-or reassembly of the three received bytes stays below 2^24 |
| Afe4404Codec.AssembleValue | afe4404.c:243-245 | the reassembled bit pattern is the big-endian number b0·2^16 + b1·2^8 + b2 |
| Afe4404Codec.SplitJoin | afe4404.c:228-230 | the three value bytes of a write reassemble to the low 24 bits of the value |
| Afe4404Codec.WriteFrame | afe4404.c:224-233 | a write frame is 4 bytes, starts with the address, and carries exactly the low 24 bits of the value, most significant byte first; bits 24-31 are dropped |
| Afe4404Codec.Bit21OfAssemble | afe4404.c:249 | the sign bit 0x00200000 that the read checks is bit 21 of the received number |
| Afe4404Codec.Low22OfAssemble | afe4404.c:251 | masking with 0x003FFFFF keeps the received number modulo 2^22 |
| Afe4404Codec.SignExtend22 | afe4404.c:252 | XOR with 0xFFC00000 of a 22-bit code, read as int32_t, is the code minus 2^22 |
| Afe4404Codec.Slice16OfAssemble | afe4404.c:270 | `(retVal >> 6) & 0xffff` is the received number divided by 64, modulo 2^16 |
| Afe4404Codec.ToInt16Wraps | afe4404.c:258-270 | the int16_t conversion lands in [-2^15, 2^15) and is congruent to its input modulo 2^16 |
| Afe4404Codec.ReadRegister | afe4404.c:235-256 | for an address 0x2A-0x2F whose bit 21 is set the result is (number mod 2^22) - 2^22; otherwise, for any address, the unsigned 24-bit number the bytes spell |
| Afe4404Codec.ReadRegister16 | afe4404.c:258-271 | the result is in the int16 range and is congruent to the received number divided by 64 modulo 2^16, with no dependence on the address |
| Afe4404Codec.AdcRoundTrip | afe4404.c:247-253 | a 22-bit code v sent sign-extended in 24 bits reads back as v from every ADC result register |
| Afe4404Codec.Read16IsCoarseAdc | afe4404.c:235-271 | on such codes the 16-bit read from any address equals the 32-bit read of an ADC register divided by 64, rounded down |
| Afe4404Codec.WriteReadBack | afe4404.c:224-256 | a 24-bit value written to a non-ADC register and echoed back by the chip reads back unchanged |
| Afe4404Codec.ReadExamples | afe4404.c:243-270 | bytes 20 00 00 read as -2097152 from 0x2C but 2097152 from 0x1D; bytes 12 34 56 read16 as 0x48D1; the 16-bit read ignores the address |
| Afe4404Settings.LedConfigWord | afe4404.c:274-281 | LED_CONFIG is below 2^20; each 6-bit field holds its current or'ed with the high bits spilled from the field below; bits 18-19 hold LED3's spill |
| Afe4404Settings.LedConfigRoundTrip | afe4404.c:276-279 | currents of at most 63 give a word below 2^18 whose three fields decode back to the currents |
| Afe4404Settings.LedConfigUnmasked | afe4404.c:277-279 | the inputs are not masked: LED1 current 64 lands in the LED2 field; wakeUp's (5, 0, 30) gives 0x1E005 |
| Afe4404Settings.TiaGainWord | afe4404.c:285-301 | the word's bits 0-2 hold the index, replaced by 0 when above 7; bits 3-5 hold capacitor code 2; bit 15 is set exactly for the phase-2 register; bits 6-14 are 0; the word fits 16 bits |
| Afe4404Settings.GainWordInTable | afe4404.c:450-467 | the resistor code a gain word carries always has a table entry, the entry of the clamped index |
| Afe4404Settings.OffsetField | afe4404.c:309-316 | the DAC field is below 0x20; bits 0-3 hold the magnitude clamped to 15; bit 4 is set exactly when polarity is non-zero |
| Afe4404Settings.Led3SetGet | afe4404.c:318-320 | after the LED3 read-modify-write, the slot holds the field and every bit outside bits 0-4 is kept |
| Afe4404Settings.Led2SetGet | afe4404.c:321-323 | the same for LED2, bits 15-19 |
| Afe4404Settings.Led1SetGet | afe4404.c:324-326 | the same for LED1, bits 5-9 |
| Afe4404Settings.Ambient1SetGet | afe4404.c:327-329 | the same for Ambient1, bits 10-14 |
| Afe4404Settings.Led3SetBound | afe4404.c:318-320 | writing the LED3 slot keeps a register within the 20 slot bits |
| Afe4404Settings.Led2SetBound | afe4404.c:321-323 | the same for LED2 |
| Afe4404Settings.Led1SetBound | afe4404.c:324-326 | the same for LED1 |
| Afe4404Settings.Ambient1SetBound | afe4404.c:327-329 | the same for Ambient1 |
| Afe4404Settings.Led3SetTwice | afe4404.c:318-320 | a second write of the LED3 slot overrides the first |
| Afe4404Settings.Led2SetTwice | afe4404.c:321-323 | the same for LED2 |
| Afe4404Settings.Led1SetTwice | afe4404.c:324-326 | the same for LED1 |
| Afe4404Settings.Ambient1SetTwice | afe4404.c:327-329 | the same for Ambient1 |
| Afe4404Settings.WithSlotFacts | afe4404.c:318-330 | a channel 0-3 has its slot set to the field with every other bit kept; any other channel changes nothing |
| Afe4404Settings.ReverseCurrentSlot | afe4404.c:307-330 | setReverseCurrent puts the clamped field in the channel's slot and keeps every other bit; a channel above 3 leaves the shadow unchanged |
| Afe4404Settings.ReverseCurrentNoSlot | afe4404.c:318-330 | a channel above 3 leaves the DAC shadow unchanged |
| Afe4404Settings.ReverseCurrentBound | afe4404.c:318-330 | a shadow within bits 0-19 stays within them |
| Afe4404Settings.SlotsMatchRegisterMap | afe4404.c:187-194 | each slot starts at its I_OFFDAC offset, has its POL_OFFDAC bit as bit 4, and the four slots tile bits 0-19 |
| Afe4404Settings.ReverseCurrentLastWins | afe4404.c:307-332 | setting one channel twice keeps only the second setting |
| Afe4404Settings.ReverseCurrentExamples | afe4404.c:307-332 | concrete DAC words: LED2 (1, 10) gives 0xD0000, LED1 (1, 10) gives 0x340, clamping of (7, 200), channel 4 changes nothing |
| Afe4404Settings.ResultPhase | afe4404.c:439-449 | LED1VAL and ALED1VAL select the phase-1 gain, LED2VAL and LED3VAL the phase-2 gain (both directions), and no other address selects a gain |
| Afe4404Settings.GainResistance | afe4404.c:450-470 | the gain switch matches exactly the codes 0-7, with resistances between 10 kOhm and 2 MOhm; any other code falls through to the zero return |
| Afe4404WakeUp.WakeUpLogShape | afe4404.c:336-405 | wakeUp appends 42 writes and keeps the earlier log; the first is the reset 0x00←0x08 and the last writes the final DAC shadow |
| Afe4404WakeUp.RegisterValueNone | afe4404.c:224-233 | a register has no value exactly when no write in the log names it |
| Afe4404WakeUp.RegisterValueIsLastWrite | afe4404.c:224-233 | a register's value is the data of a write to it after which no write names it |
| Afe4404WakeUp.RegisterValueSnoc | afe4404.c:224-233 | one more write sets its register and leaves every other register as it was |
| Afe4404WakeUp.ResetAndPeriodImage | afe4404.c:341-346 | the reset and period block sets the registers it writes and leaves the others |
| Afe4404WakeUp.Led2PhaseImage | afe4404.c:348-356 | the same for the LED2 block |
| Afe4404WakeUp.Led3PhaseImage | afe4404.c:358-367 | the same for the LED3 block |
| Afe4404WakeUp.Led1PhaseImage | afe4404.c:369-377 | the same for the LED1 block |
| Afe4404WakeUp.Ambient1PhaseImage | afe4404.c:379-385 | the same for the Ambient1 block |
| Afe4404WakeUp.PowerDownCycleImage | afe4404.c:387-389 | the same for the power-down block |
| Afe4404WakeUp.AveragingAndClockImage | afe4404.c:391-394 | the same for the averaging and clock-divider block |
| Afe4404WakeUp.DefaultsImage | afe4404.c:396-403 | the same for the LED current, gain and DAC defaults |
| Afe4404WakeUp.WakeUpImage | afe4404.c:341-403 | after wakeUp every register it writes holds wakeUp's value, and every other register holds what it held before |
| Afe4404WakeUp.ResetAndPeriodFinal | afe4404.c:341-346 | no later write of wakeUp overwrites a register of the reset and period block |
| Afe4404WakeUp.Led2PhaseFinal | afe4404.c:348-356 | the same for the LED2 block |
| Afe4404WakeUp.Led3PhaseFinal | afe4404.c:358-367 | the same for the LED3 block |
| Afe4404WakeUp.Led1PhaseFinal | afe4404.c:369-377 | the same for the LED1 block |
| Afe4404WakeUp.Ambient1PhaseFinal | afe4404.c:379-385 | the same for the Ambient1 block |
| Afe4404WakeUp.PowerDownCycleFinal | afe4404.c:387-389 | the same for the power-down block |
| Afe4404WakeUp.AveragingAndClockFinal | afe4404.c:391-394 | the same for the averaging and clock-divider block |
| Afe4404WakeUp.DefaultsFinal | afe4404.c:396-403 | the defaults are the last writes of their registers |
| Afe4404WakeUp.WakeUpResetAndPeriod | afe4404.c:341-346 | wakeUp resets the device (0x08 to DIAGNOSIS) and sets the period to 7812 cycles |
| Afe4404WakeUp.Led2PhaseTiming | afe4404.c:348-356 | every LED2 window starts no later than it ends and ends inside the period; ADC reset 0 and LED2 sampling end before the LED2 conversion starts |
| Afe4404WakeUp.Led3PhaseTiming | afe4404.c:358-367 | the same for LED3; sampling lies inside the LED3 pulse; ADC reset 1 starts after the LED2 conversion |
| Afe4404WakeUp.Led1PhaseTiming | afe4404.c:369-377 | the same for LED1; sampling lies inside the LED1 pulse; ADC reset 2 starts after the LED3 conversion |
| Afe4404WakeUp.Ambient1PhaseTiming | afe4404.c:379-385 | the same for Ambient1; ADC reset 3 starts after the LED1 conversion |
| Afe4404WakeUp.PowerDownCycleTiming | afe4404.c:387-389 | the power-down window lies after the Ambient1 conversion and inside the period |
| Afe4404WakeUp.ResetAndPeriodInLog | afe4404.c:341-346 | from any log and shadow, after wakeUp the reset, settings and period registers hold the values this block writes |
| Afe4404WakeUp.Led2PhaseInLog | afe4404.c:348-356 | the same for every register of the LED2 block |
| Afe4404WakeUp.Led3PhaseInLog | afe4404.c:358-367 | the same for every register of the LED3 block |
| Afe4404WakeUp.Led1PhaseInLog | afe4404.c:369-377 | the same for every register of the LED1 block |
| Afe4404WakeUp.Ambient1PhaseInLog | afe4404.c:379-385 | the same for every register of the Ambient1 block |
| Afe4404WakeUp.PowerDownCycleInLog | afe4404.c:387-389 | the same for the power-down registers |
| Afe4404WakeUp.AveragingAndClockInLog | afe4404.c:391-394 | the same for the averaging and clock-divider registers |
| Afe4404WakeUp.DefaultsInLog | afe4404.c:396-403 | the same for LED_CONFIG, the two gain words and the final DAC shadow |
| Afe4404WakeUp.WakeUpLogLed2Conversion | afe4404.c:353-364 | in the registers wakeUp leaves, ADC reset 0 ends before the LED2 conversion starts, which ends before ADC reset 1 starts |
| Afe4404WakeUp.WakeUpLogLed3Conversion | afe4404.c:364-374 | the same for ADC reset 1, the LED3 conversion and ADC reset 2 |
| Afe4404WakeUp.WakeUpLogLed1Conversion | afe4404.c:374-382 | the same for ADC reset 2, the LED1 conversion and ADC reset 3 |
| Afe4404WakeUp.WakeUpLogAmbient1Conversion | afe4404.c:346-385 | ADC reset 3 ends before the Ambient1 conversion starts, which ends before the 7812-cycle period does |
| Afe4404WakeUp.WakeUpDacForm | afe4404.c:402-403 | wakeUp's DAC writes put field 26 in the LED1 slot, then field 10 in the LED2 slot |
| Afe4404WakeUp.WakeUpDacSlots | afe4404.c:402-403 | after wakeUp the LED1 slot holds 26 and the LED2 slot 10; the LED3 and Ambient1 slots and the bits above the slots are unchanged |
| Afe4404WakeUp.WakeUpDacIdempotent | afe4404.c:402-403 | a second wakeUp leaves the DAC shadow as the first left it |
| Afe4404WakeUp.WakeUpTwice | afe4404.c:336-405 | a second wakeUp, from the shadow the first left, leaves every register as the first left it |
| Afe4404Driver.Afe4404.constructor | afe4404.c:219-222 | the globals start at 0, nothing has been written, and the state invariant holds |
| Afe4404Driver.Afe4404.WriteRegister | afe4404.c:224-233 | one write appends exactly (address, value) to the log and changes no global |
| Afe4404Driver.Afe4404.SetLedCurrent | afe4404.c:274-281 | one write of the packed LED_CONFIG word; no global changes |
| Afe4404Driver.Afe4404.SetTiaGain | afe4404.c:283-305 | channel 1 writes TIA_GAINS1 and records its clamped index as the phase-1 gain; channel 2 writes TIA_GAINS2 with bit 15 and records the phase-2 gain; other channels write nothing and change nothing; the gains stay in 0-7 |
| Afe4404Driver.Afe4404.SetReverseCurrent | afe4404.c:307-334 | the shadow gets the channel's slot replaced by the clamped field (see ReverseCurrentSlot), and exactly one write of the new shadow to DAC_SETTING follows; the gains are kept |
| Afe4404Driver.Afe4404.WakeUp | afe4404.c:336-405 | the log gains exactly wakeUp's 42 writes; the phase gains become 100 kOhm and 10 kOhm; the shadow becomes WakeUpDac of the old shadow |
| Afe4404Driver.Afe4404.CurrentGain | afe4404.c:439-470 | a gain is selected exactly for LED1VAL, ALED1VAL, LED2VAL and LED3VAL; while the gains are table codes the lookup always finds an entry, so the zero return is not reached |
| Afe4404Driver.WakeUpGains | afe4404.c:439-467 | with wakeUp's gains, LED1 and Ambient1 results are divided by the 100 kOhm gain and LED2 and LED3 results by the 10 kOhm gain |

## Left out

- The bus itself: `iic_send`, `iic_read` and `iic_init` come from `transfer_handler.h`, which is not part of this model. A write is an entry appended to the log. A read takes the three received bytes as parameters. Bus errors are not modelled.
- Chip select and pin control (`digitalWrite`, `pinMode`). With them go `afe4404_begin`, which only initialises the bus, sets the pin mode and calls wakeUp, and `afe4404_sleep`, which only lowers the chip-select pin.
- The `Debug` logging calls in setTiaGain and setReverseCurrent.
- The floating-point part of readCurrent: the scaling by 2.4/65536 and the division by twice the resistance. Only the gain selection and the table lookup are modelled.
- Afe4404Driver.Afe4404.CurrentGain: for the ADC registers 0x2E and 0x2F, and for any other address, readCurrent reads an uninitialised gain. The model returns None for these addresses instead of inventing a value.
- `afe4404_readADC32` is the 32-bit read under another name, so it is covered by `ReadRegister`.
- The setLEDCurrent prototype in afe4404.h takes two arguments and does not match the three-argument definition. The model follows the definition.
- Afe4404Driver.Afe4404.Valid: it keeps only the gains in 0-7. The bound of the DAC shadow to bits 0-19 is stated by the lemma `ReverseCurrentBound` instead, and is not carried as an invariant of the object.
- Afe4404Driver.Afe4404.WakeUp: its postcondition gives the log as `WakeUpLog`. The timing, DAC and gain facts are separate lemmas about `WakeUpLog`, `WakeUpDac` and the gains.
