/** The SPI bus as seen by the BMI160 driver: single-register transfers,
    their framing on the wire, and the bus as an oracle. */
module Bmi160Bus {
  import opened Bytes
  import opened Wrappers
  import opened Bmi160Regs

  /** One register transfer of `BMI160_ReadReg` or `BMI160_WriteReg`. */
  datatype Transfer = Read(reg: Byte) | Write(reg: Byte, data: Byte)

  /** The bytes the driver clocks out for a transfer before releasing chip
      select: for a read the request byte (the response is clocked in
      afterwards), for a write the address byte then the data byte. */
  function Frame(t: Transfer): (f: seq<Byte>)
    ensures t.Read? ==> |f| == 1 && f[0] & 0x80 != 0
    ensures t.Write? ==> |f| == 2 && f[0] & 0x80 == 0 && f[1] == t.data
    ensures f[0] & 0x7F == t.reg & 0x7F
  {
    match t
    case Read(reg) => [ReadCommand(reg)]
    case Write(reg, data) => [WriteAddress(reg), data]
  }

  /** How the chip reads a frame: bit 7 of the first byte selects read or
      write, its low seven bits address the register. */
  function ParseFrame(f: seq<Byte>): Option<Transfer> {
    if |f| == 1 && f[0] & 0x80 != 0 then Some(Read(f[0] & 0x7F))
    else if |f| == 2 && f[0] & 0x80 == 0 then Some(Write(f[0], f[1]))
    else None
  }

  /** The chip decodes every transfer to a 7-bit register as the transfer
      the driver meant. */
  lemma FrameRoundTrip(t: Transfer)
    requires t.reg < 0x80
    ensures ParseFrame(Frame(t)) == Some(t)
  {
  }

  /** Every frame the chip accepts is the framing of the transfer it
      decodes to. */
  lemma ParseFrameRoundTrip(f: seq<Byte>)
    requires ParseFrame(f).Some?
    ensures ParseFrame(f).value.reg < 0x80
    ensures Frame(ParseFrame(f).value) == f
  {
  }

  /** The bus as an oracle: what a register read returns, and what status a
      write of `data` to `reg` reports. Each operation of the driver reads a
      given register at most once, so a function of the address covers every
      behaviour of the device during one operation. */
  datatype Bus = Bus(read: Byte -> Byte, writeStatus: (Byte, Byte) -> int)

  /** The bus as the driver's own `BMI160_WriteReg` sees it: every write
      reports 0. */
  function SourceBus(regs: Byte -> Byte): (bus: Bus)
    ensures forall reg, data :: bus.writeStatus(reg, data) == 0
    ensures forall reg :: bus.read(reg) == regs(reg)
  {
    Bus(regs, (reg, data) => 0)
  }
}
