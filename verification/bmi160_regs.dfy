/** Register map, command values and the bit-level helpers of the BMI160
    driver (src/main/drivers/accgyro_spi_bmi160.c). */
module Bmi160Regs {
  import opened Bytes
  import opened Wrappers

  // Register addresses.
  const RegChipId: Byte := 0x00
  const RegPmuStat: Byte := 0x03
  const RegGyrDataXLsb: Byte := 0x0C
  const RegAccDataXLsb: Byte := 0x12
  const RegAccConf: Byte := 0x40
  const RegAccRange: Byte := 0x41
  const RegGyrConf: Byte := 0x42
  const RegGyrRange: Byte := 0x43
  const RegIntEn1: Byte := 0x51
  const RegIntOutCtrl: Byte := 0x53
  const RegIntMap1: Byte := 0x56
  const RegOffset0: Byte := 0x77
  const RegCmd: Byte := 0x7E
  /** Reading this address switches the chip's interface to SPI. */
  const RegSpiWake: Byte := 0x7F

  // Register values.
  const PmuCmdAccNormal: Byte := 0x11
  const PmuCmdGyrNormal: Byte := 0x15
  const IntEn1Drdy: Byte := 0x10
  const IntOutCtrlInt1Config: Byte := 0x0A
  const IntMap1Int1Drdy: Byte := 0x80
  /** The chip-ID register's content on a BMI160. */
  const ChipIdBmi160: Byte := 0xD1

  // Output data rate and range encodings of the BMI160 (ACC_CONF, GYR_CONF,
  // ACC_RANGE, GYR_RANGE fields).
  const Odr800Hz: Byte := 0x0B
  const Odr3200Hz: Byte := 0x0D
  const Range8G: Byte := 0x08
  const Range2000Dps: Byte := 0x00
  /** Bandwidth field value 0b010: only the first filter stage is used. */
  const BwpNormal: Byte := 0x20

  /** The full-scale range, in g, that an ACC_RANGE value selects:
      0x03, 0x05, 0x08 and 0x0C give +-2, 4, 8 and 16 g; every other value
      is reserved. */
  function AccRangeOf(range: Byte): Option<nat> {
    if range == 0x03 then Some(2)
    else if range == 0x05 then Some(4)
    else if range == 0x08 then Some(8)
    else if range == 0x0C then Some(16)
    else None
  }

  /** The first byte of a register read: the address with bit 7 set. */
  function ReadCommand(reg: Byte): (c: Byte)
    ensures c & 0x80 == 0x80
    ensures c & 0x7F == reg & 0x7F
  {
    0x80 | reg
  }

  /** The first byte of a register write: the address with bit 7 cleared. */
  function WriteAddress(reg: Byte): (a: Byte)
    ensures a & 0x80 == 0
    ensures a & 0x7F == reg & 0x7F
  {
    0x7f & reg
  }

  /** For a 7-bit register address, a write addresses the register itself
      and a read addresses it with only the direction bit added; the two
      differ in bit 7 alone. */
  lemma FramingKeepsAddress(reg: Byte)
    requires reg < 0x80
    ensures WriteAddress(reg) == reg
    ensures ReadCommand(reg) as int == reg as int + 0x80
    ensures ReadCommand(reg) == WriteAddress(reg) | 0x80
    ensures ReadCommand(reg) != WriteAddress(reg)
  {
  }

  /** The transmit buffer of a burst read of three 16-bit axes starting at
      `reg`: the read command followed by six dummy bytes. */
  function BurstRequest(reg: Byte): (tx: seq<Byte>)
    ensures |tx| == 7
    ensures tx[0] & 0x80 == 0x80 && tx[0] & 0x7F == reg & 0x7F
    ensures forall i :: 1 <= i < 7 ==> tx[i] == 0
  {
    [ReadCommand(reg), 0, 0, 0, 0, 0, 0]
  }

  /** The accelerometer (0x12) and gyroscope (0x0C) sample requests. */
  lemma BurstRequestBytes()
    ensures BurstRequest(RegAccDataXLsb)[0] == 0x92
    ensures BurstRequest(RegGyrDataXLsb)[0] == 0x8C
  {
  }

  /** PMU_STATUS bits 5:4: the accelerometer's power mode. */
  function AccPmuStatus(status: Byte): Byte {
    (status >> 4) & 3
  }

  /** PMU_STATUS bits 3:2: the gyroscope's power mode. */
  function GyrPmuStatus(status: Byte): Byte {
    (status >> 2) & 3
  }

  /** Power-mode field value meaning "normal". */
  const PmuNormalMode: Byte := 1

  /** The driver's power-mode check `(pmu_status & 0x3C) == 0x14`: it holds
      exactly when both the accelerometer and the gyroscope report normal
      mode, whatever the magnetometer bits 1:0 and the reserved bits 7:6. */
  function PmuNormal(status: Byte): (ok: bool)
    ensures ok <==> AccPmuStatus(status) == PmuNormalMode && GyrPmuStatus(status) == PmuNormalMode
  {
    status & 0x3C == 0x14
  }

  /** The value written back to OFFSET_0 to enable offset compensation:
      acc_off_en (bit 6) and gyr_off_en (bit 7) are set and the six low bits
      read from the register are kept. */
  function OffsetEnable(val: Byte): (r: Byte)
    ensures r & 0xC0 == 0xC0
    ensures r & 0x3F == val & 0x3F
  {
    val | 0xC0
  }

  /** Enabling compensation on a register that already has it enabled
      leaves the register as it is, and only then. */
  lemma OffsetEnableFixedPoints(val: Byte)
    ensures OffsetEnable(val) == val <==> val & 0xC0 == 0xC0
    ensures OffsetEnable(OffsetEnable(val)) == OffsetEnable(val)
  {
  }
}
