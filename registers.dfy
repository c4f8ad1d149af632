/** Register map of the TI AFE4404 optical front-end as the driver uses it:
    register addresses, bit offsets of the offset-cancellation DAC fields,
    the feedback-capacitor and gain-resistor codes, and the ADC result
    registers. Constants only; no logic. */
module Afe4404Registers {

  /** 7-bit bus address of the device (not used by the model: the bus is left out). */
  const AFE4404_I2C_ADDR: bv8 := 0x58

  // Diagnosis / software reset
  const DIAGNOSIS: bv8 := 0x00

  // Pulse repetition period counter and timer enable / averaging
  const PRPCT: bv8 := 0x1D
  const TIM_NUMAV: bv8 := 0x1E

  // Feedback capacitor codes of the TIA gain registers
  const GAIN_CAP_5PF: bv8 := 0
  const GAIN_CAP_3PF: bv8 := 1
  const GAIN_CAP_10PF: bv8 := 2
  const GAIN_CAP_8PF: bv8 := 3
  const GAIN_CAP_20PF: bv8 := 4
  const GAIN_CAP_18PF: bv8 := 5
  const GAIN_CAP_25PF: bv8 := 6
  const GAIN_CAP_23PF: bv8 := 7

  // TIA gain registers: phase 1 (LED1 / Ambient1) and phase 2 (LED2 / LED3)
  const TIA_GAINS1: bv8 := 0x21
  const TIA_GAINS2: bv8 := 0x20

  // Timing engine windows (start / end register pairs)
  const LED1_ST: bv8 := 0x03
  const LED1_END: bv8 := 0x04
  const SMPL_LED1_ST: bv8 := 0x07
  const SMPL_LED1_END: bv8 := 0x08
  const LED1_CONV_ST: bv8 := 0x11
  const LED1_CONV_END: bv8 := 0x12
  const SMPL_AMB1_ST: bv8 := 0x0B
  const SMPL_AMB1_END: bv8 := 0x0C
  const AMB1_CONV_ST: bv8 := 0x13
  const AMB1_CONV_END: bv8 := 0x14
  const LED2_ST: bv8 := 0x09
  const LED2_END: bv8 := 0x0A
  const SMPL_LED2_ST: bv8 := 0x01
  const SMPL_LED2_END: bv8 := 0x02
  const LED2_CONV_ST: bv8 := 0x0D
  const LED2_CONV_END: bv8 := 0x0E
  const SMPL_LED3_ST: bv8 := 0x05
  const SMPL_LED3_END: bv8 := 0x06
  const LED3_CONV_ST: bv8 := 0x0F
  const LED3_CONV_END: bv8 := 0x10
  const ADC_RST_P0_ST: bv8 := 0x15
  const ADC_RST_P0_END: bv8 := 0x16
  const ADC_RST_P1_ST: bv8 := 0x17
  const ADC_RST_P1_END: bv8 := 0x18
  const ADC_RST_P2_ST: bv8 := 0x19
  const ADC_RST_P2_END: bv8 := 0x1A
  const ADC_RST_P3_ST: bv8 := 0x1B
  const ADC_RST_P3_END: bv8 := 0x1C

  // LED current control: LED1 bits 0-5, LED2 bits 6-11, LED3 bits 12-17
  const LED_CONFIG: bv8 := 0x22

  const SETTINGS: bv8 := 0x23
  const CLKOUT: bv8 := 0x29
  const PD_SHORT_FLAG: bv8 := 0x30
  const PD_INP_EXT: bv8 := 0x31
  const PDNCYCLESTC: bv8 := 0x32
  const PDNCYCLEENDC: bv8 := 0x33
  const PROG_TG_STC: bv8 := 0x34
  const PROG_TG_ENDC: bv8 := 0x35
  const LED3LEDSTC: bv8 := 0x36
  const LED3LEDENDC: bv8 := 0x37
  const CLKDIV_PRF: bv8 := 0x39

  // Offset-cancellation DAC register and the bit offsets of its fields
  const DAC_SETTING: bv8 := 0x3A
  const POL_OFFDAC_LED2: bv32 := 19
  const I_OFFDAC_LED2: bv32 := 15
  const POL_OFFDAC_AMB1: bv32 := 14
  const I_OFFDAC_AMB1: bv32 := 10
  const POL_OFFDAC_LED1: bv32 := 9
  const I_OFFDAC_LED1: bv32 := 5
  const POL_OFFDAC_LED3: bv32 := 4
  const I_OFFDAC_LED3: bv32 := 0

  // ADC result registers (22-bit two's complement codes)
  const LED1VAL: bv8 := 0x2C
  const LED2VAL: bv8 := 0x2A
  const LED3VAL: bv8 := 0x2B
  const ALED1VAL: bv8 := 0x2D
  const LED1_ALED1VAL: bv8 := 0x2F
  const LED2_ALED2VAL: bv8 := 0x2E

  // Transimpedance gain-resistor codes
  const GAIN_RES_500K: bv8 := 0
  const GAIN_RES_250K: bv8 := 1
  const GAIN_RES_100K: bv8 := 2
  const GAIN_RES_50K: bv8 := 3
  const GAIN_RES_25K: bv8 := 4
  const GAIN_RES_10K: bv8 := 5
  const GAIN_RES_1M: bv8 := 6
  const GAIN_RES_2M: bv8 := 7
}
