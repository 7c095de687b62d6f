# BMI160 SPI driver and AlienFlight F3 defaults, modelled in Dafny

This project models two pieces of the flight-controller firmware:

- The Bosch BMI160 accelerometer/gyroscope driver
  (`src/main/drivers/accgyro_spi_bmi160.c`). Its pieces are:
  - the register-level SPI framing;
  - chip detection, with the 0x7F dummy read and the 0xD1 chip ID;
  - the ordered configuration sequence and its error codes, including the
    power-mode check `(pmu_status & 0x3C) == 0x14`, the read-modify-write
    `val | 0xC0` on OFFSET_0, and the code -3 that two steps share;
  - the latched `BMI160Detected` and `BMI160InitDone` flags;
  - the interrupt-line setup, which happens once;
  - the data-ready flag shared by the interrupt handler and the poll;
  - the decoding of the seven-byte burst reads into signed 16-bit axes.
- The AlienFlight F3 `targetConfiguration`
  (`src/main/target/ALIENFLIGHTF3/config.c`). It overrides the default
  configuration record by hardware revision and motor type.

The driver talks to the device only through a bus oracle. The oracle is a
value `Bus(read, writeStatus)`: what each register read returns, and what
status each write reports. Every driver operation is a pure function. It
takes the driver's flags and the bus, and returns the next flags and the
list of register transfers performed. `SourceBus` is the bus as the driver's
own `BMI160_WriteReg` presents it, where every write reports 0.

Modules:

- `Bytes`: bytes, 16-bit words and `int16_t`.
- `Bmi160Regs`: register addresses, command bytes and bit-field helpers.
- `Bmi160Bus`: transfers, framing and the bus oracle.
- `Bmi160Sample`: burst-read decoding.
- `Bmi160Config`: `BMI160_Config` as an ordered step table.
- `Bmi160Driver`: the flags, detect/init, the interrupt handshake and the
  whole call lifetime.
- `AlienFlightF3Config`: `targetConfiguration`.

## Model

| member | source | states |
|---|---|---|
| Bytes.WordValue | src/main/drivers/accgyro_spi_bmi160.c:310 | the high byte shifted left by 8 and OR-ed with the low byte is the unsigned little-endian value `hi*256 + lo` |
| Bytes.ToInt16 | src/main/drivers/accgyro_spi_bmi160.c:310-312 | the `(int16_t)` cast gives the signed value whose 16-bit two's complement pattern is the word |
| Bytes.Int16RoundTrip | src/main/drivers/accgyro_spi_bmi160.c:310-312 | splitting any `int16_t` into high and low bytes and decoding them with the cast gives the value back |
| Bytes.BytesRoundTrip | src/main/drivers/accgyro_spi_bmi160.c:310-312 | decoding a byte pair and re-encoding it gives the same two bytes, so no information is lost |
| Bmi160Regs.ReadCommand | src/main/drivers/accgyro_spi_bmi160.c:232 | a read request has the direction bit 7 set and keeps the register's seven address bits |
| Bmi160Regs.WriteAddress | src/main/drivers/accgyro_spi_bmi160.c:251 | a write address has bit 7 clear and keeps the register's seven address bits |
| Bmi160Regs.FramingKeepsAddress | src/main/drivers/accgyro_spi_bmi160.c:232-251 | for every 7-bit register, writes address the register unchanged and reads differ from writes in bit 7 only |
| Bmi160Regs.BurstRequest | src/main/drivers/accgyro_spi_bmi160.c:304 | a burst request is seven bytes: the read command for the first data register, then six zero bytes |
| Bmi160Regs.BurstRequestBytes | src/main/drivers/accgyro_spi_bmi160.c:304-332 | the accelerometer burst starts with 0x92 and the gyroscope burst with 0x8C |
| Bmi160Regs.PmuNormal | src/main/drivers/accgyro_spi_bmi160.c:164-168 | the mask test `& 0x3C == 0x14` holds exactly when both the accelerometer and gyroscope power-mode fields read "normal", whatever the other bits |
| Bmi160Regs.OffsetEnable | src/main/drivers/accgyro_spi_bmi160.c:193-195 | the write-back sets both offset-enable bits 7:6 and keeps the six low bits that were read |
| Bmi160Regs.OffsetEnableFixedPoints | src/main/drivers/accgyro_spi_bmi160.c:194-195 | the write-back leaves the register unchanged exactly when compensation was already enabled, and applying it twice is the same as once |
| Bmi160Bus.Frame | src/main/drivers/accgyro_spi_bmi160.c:226-257 | a read sends one byte with bit 7 set; a write sends an address byte with bit 7 clear, then the data; both carry the register's address bits |
| Bmi160Bus.FrameRoundTrip | src/main/drivers/accgyro_spi_bmi160.c:226-257 | the device decodes every transfer to a 7-bit register as the transfer the driver meant |
| Bmi160Bus.ParseFrameRoundTrip | src/main/drivers/accgyro_spi_bmi160.c:226-257 | every frame the device accepts is the framing of the transfer it decodes to |
| Bmi160Bus.SourceBus | src/main/drivers/accgyro_spi_bmi160.c:247-257 | with the driver's write routine every write reports status 0, and reads return the register contents |
| Bmi160Sample.DecodeAxes | src/main/drivers/accgyro_spi_bmi160.c:310-312 | axis k of a receive buffer has the 16-bit pattern of the little-endian word in slots 2k+1 (low) and 2k+2 (high) |
| Bmi160Sample.DecodeEncode | src/main/drivers/accgyro_spi_bmi160.c:310-312 | decoding the buffer a device sends for any three axes gives those axes back, whatever is in slot 0 |
| Bmi160Sample.EncodeDecode | src/main/drivers/accgyro_spi_bmi160.c:338-340 | re-encoding the decoded axes rebuilds slots 1 to 6 of the buffer |
| Bmi160Sample.FirstSlotIgnored | src/main/drivers/accgyro_spi_bmi160.c:292-301 | the byte clocked in during the request (slot 0) never affects the axes |
| Bmi160Sample.DecodeInjective | src/main/drivers/accgyro_spi_bmi160.c:310-312 | two buffers decode to the same axes if and only if they agree on slots 1 to 6 |
| Bmi160Sample.AccRead | src/main/drivers/accgyro_spi_bmi160.c:290-315 | the accelerometer read sends 0x92 then six zeros, and axis k is the signed little-endian word at slots 2k+1 and 2k+2 |
| Bmi160Sample.GyroRead | src/main/drivers/accgyro_spi_bmi160.c:318-343 | the gyroscope read sends 0x8C then six zeros, and axis k is the signed little-endian word at slots 2k+1 and 2k+2 |
| Bmi160Config.TranscriptPrefix | src/main/drivers/accgyro_spi_bmi160.c:150-218 | the transfers of the first m steps are a prefix of those of the first n steps when m ≤ n |
| Bmi160Config.RunFrom | src/main/drivers/accgyro_spi_bmi160.c:150-218 | running the sequence from any step returns 0 or the code of one of the remaining steps |
| Bmi160Config.RunFromFirstFailure | src/main/drivers/accgyro_spi_bmi160.c:150-218 | a run returns 0 iff every step passes, then performs every step's transfers; otherwise it returns the first failing step's code after that step's transfers and none after |
| Bmi160Config.RunPlanFirstFailure | src/main/drivers/accgyro_spi_bmi160.c:150-218 | the same, for a run of the whole sequence from the start |
| Bmi160Config.Config | src/main/drivers/accgyro_spi_bmi160.c:150-218 | `BMI160_Config` returns 0 iff every step passes, with all 11 steps' transfers; otherwise it returns the first failing step's code, having performed exactly the transfers up to and including that step |
| Bmi160Config.ConfigPlanCodes | src/main/drivers/accgyro_spi_bmi160.c:154-214 | the steps fail with -1, -2, -3, -3, -4, ..., -10 in order; step 2 is the power-mode check and step 3 is the ACC_CONF write |
| Bmi160Config.FirstFailureFrom | src/main/drivers/accgyro_spi_bmi160.c:150-218 | when some step fails, there is a first failing step |
| Bmi160Config.ConfigCodeRange | src/main/drivers/accgyro_spi_bmi160.c:150-218 | the configuration always returns a code from -10 to 0 |
| Bmi160Config.ConfigStartsWithGyroPowerUp | src/main/drivers/accgyro_spi_bmi160.c:153-156 | every run starts by writing the gyroscope normal-mode command to CMD, so the bus is always used |
| Bmi160Config.ConfigOnSourceBus | src/main/drivers/accgyro_spi_bmi160.c:150-257 | with the driver's own write routine, the result is 0 when the device reports normal power mode and -3 otherwise; on -3 exactly the two CMD writes and the PMU_STATUS read happen; on success the OFFSET_0 write-back happens |
| Bmi160Config.CodeMinus3IsShared | src/main/drivers/accgyro_spi_bmi160.c:164-174 | a failed power-mode check and a failed ACC_CONF write both return -3, so the code does not identify the step |
| Bmi160Driver.Detect | src/main/drivers/accgyro_spi_bmi160.c:105-126 | detection succeeds iff it had already succeeded or the chip ID reads 0xD1; success latches the flag; an earlier success skips the bus, else the 0x7F wake read and the chip-ID read happen |
| Bmi160Driver.Init | src/main/drivers/accgyro_spi_bmi160.c:133-144 | nothing happens when init is done or the chip is undetected; otherwise the configuration runs, init is latched iff it returns 0, and the bus is used |
| Bmi160Driver.ExtiInit | src/main/drivers/accgyro_spi_bmi160.c:269-287 | the interrupt line is set up iff it had not been before, and afterwards it is marked as set up |
| Bmi160Driver.AccOneGMatchesRange | src/main/drivers/accgyro_spi_bmi160.c:183-185 | the configuration writes 0x08 to ACC_RANGE (failing with -5), which selects ±8 g, and acc_1G = 512*8 (line 371) times that range is the full int16 scale 2^15 |
| Bmi160Driver.AccInit | src/main/drivers/accgyro_spi_bmi160.c:364-372 | accelerometer init runs the chip init, then the one-time interrupt setup, and reports one g as 4096 counts |
| Bmi160Driver.GyroInit | src/main/drivers/accgyro_spi_bmi160.c:358-362 | gyroscope init ignores its low-pass argument; it does nothing when init is done or the chip is undetected, and otherwise runs the configuration and latches init iff it returns 0, with the configuration's transfers |
| Bmi160Driver.ExtiHandler | src/main/drivers/accgyro_spi_bmi160.c:262-266 | the handler raises data-ready and changes nothing else |
| Bmi160Driver.CheckDataReady | src/main/drivers/accgyro_spi_bmi160.c:346-356 | the poll reports the flag, clears it, and changes nothing else |
| Bmi160Driver.PendingAfterEdge | src/main/drivers/accgyro_spi_bmi160.c:262-266 | after an edge, data is pending in the reference sense |
| Bmi160Driver.NotPendingAfterCheck | src/main/drivers/accgyro_spi_bmi160.c:346-356 | after a poll, no data is pending in the reference sense |
| Bmi160Driver.Handshake | src/main/drivers/accgyro_spi_bmi160.c:262-356 | over any interleaving of edges and polls, a poll reports data ready iff an edge came after the previous poll, or, for the first poll, an edge came before it or the flag started raised; the final flag is raised iff an edge came after the last poll (or there was no poll and it started raised); nothing else changes |
| Bmi160Driver.Coalescing | src/main/drivers/accgyro_spi_bmi160.c:262-356 | any number of edges before a poll give exactly one wake, and a second poll with no edge in between reports nothing |
| Bmi160Driver.WakesNeedEdges | src/main/drivers/accgyro_spi_bmi160.c:262-356 | no spurious wakes: between two polls that both report data, an edge occurred |
| Bmi160Driver.EdgesAreSeen | src/main/drivers/accgyro_spi_bmi160.c:262-356 | no lost wakes: the first poll after an edge reports data ready |
| Bmi160Driver.DetectIdempotent | src/main/drivers/accgyro_spi_bmi160.c:107-108 | after a successful detection, later detections succeed with no bus traffic and no state change, whatever the bus |
| Bmi160Driver.InitIdempotent | src/main/drivers/accgyro_spi_bmi160.c:135-136 | after a successful init, later inits do nothing and use no bus, whatever the bus |
| Bmi160Driver.ExtiInitIdempotent | src/main/drivers/accgyro_spi_bmi160.c:271-275 | a second interrupt setup does nothing |
| Bmi160Driver.Apply | src/main/drivers/accgyro_spi_bmi160.c:105-400 | every entry point keeps "init done ⇒ detected", never clears a latched flag, sets up the interrupt only if not yet set up, and configures only if not yet initialised |
| Bmi160Driver.Run | src/main/drivers/accgyro_spi_bmi160.c:105-400 | over any sequence of calls and bus answers, the invariant and the latches hold, and the interrupt setup and successful configuration each happen at most once |
| Bmi160Driver.FromPowerOn | src/main/drivers/accgyro_spi_bmi160.c:89-92 | starting from all flags clear, every reachable state is consistent and each one-time action happens at most once |
| AlienFlightF3Config.Polarity | src/main/target/ALIENFLIGHTF3/config.c:55-65 | bit n of the LED polarity mask is set iff LEDn_A_INVERTED is defined, and no bit above 2 is set |
| AlienFlightF3Config.Rev2LedTags | src/main/target/ALIENFLIGHTF3/config.c:67-78 | on REV_2 every LED tag is reset, then entry n holds LEDn_A's pin when it is defined and no pin otherwise |
| AlienFlightF3Config.TargetConfiguration | src/main/target/ALIENFLIGHTF3/config.c:51-108 | the final value of every field the override writes: LEDs rewritten on REV_2 only; gyro sync and PID denominators 2 off REV_2; brushed motors force 32 kHz PWM and PID denominator 1 on every revision; Spektrum bind 5 and autoreset 1; no magnetometer; profile 0 roll and pitch P/I/D 90/44/60; mixer rows 0-7 the octo table (details below) |
| AlienFlightF3Config.TargetConfigurationFrame | src/main/target/ALIENFLIGHTF3/config.c:51-108 | every field the override does not name keeps its value; so do the other profiles, the yaw and later PID gains, and mixer rows 8 on; motor settings change only for brushed motors |
| AlienFlightF3Config.TargetConfigurationIdempotent | src/main/target/ALIENFLIGHTF3/config.c:51-108 | applying the override twice gives the same record as applying it once |

Per-field contract of `TargetConfiguration`:

- The LED configuration is rewritten on REV_2 only.
- `gyro_sync_denom` is 2 except on REV_2.
- `pid_process_denom` is 1 with brushed motors on every revision. Otherwise
  it is 2, except on REV_2.
- `motorPwmRate` is 32000 with brushed motors.
- The Spektrum satellite bind settings are always 5 and 1.
- The magnetometer is always MAG_NONE.
- Profile 0's roll and pitch gains are P 90, I 44, D 60.
- Mixer rows 0 to 7 are the AlienFlight octo table.

## Left out

- SPI chip select, bus divisor, GPIO setup and `delay` are not modelled.
  A transfer list records what was sent, not when.
- EXTI and NVIC registration of the interrupt are not modelled. `ExtiInit`
  only reports whether the setup ran.
- True concurrency between the interrupt handler and the poll is not
  modelled. `Handshake` runs the two as an interleaving of atomic events.
  The source's `volatile bool` accesses are single-word and atomic.
- The bus answers as a function of the register address for each
  operation. No operation reads the same register twice. The two CMD writes
  carry different data, so the write-status oracle can tell them apart.
- `bmi160SpiAccDetect` and `bmi160SpiGyroDetect` (lines 375-400) are
  modelled as `DetectCall`: a call to `BMI160_Detect`. Storing the
  function pointers, and the floating-point gyro scale `1/16.4`, are left
  out.
- The register values of the header (ODR 800 Hz = 0x0B, ODR 3200 Hz = 0x0D,
  ±8 g = 0x08, ±2000 °/s = 0x00) and the ACC_RANGE table of `AccRangeOf`
  come from the BMI160 datasheet.
  `accgyro_spi_bmi160.h` is not part of this model.
- The file-scope `bmi160ExtiInitDone` at line 92 is never read or written.
  The function-local static at line 271 shadows it. Only the local flag is
  modelled.
- Bmi160Config.Config: the source's nested early returns are modelled as an
  ordered table of steps run until the first failure. Config's contract is
  stated against the first-failing-step definition, not against a
  transliteration of the nested ifs.
- Bmi160Driver.Init: `BMI160_Init` returns `void` in the source. The model
  exposes the transfers and the latched flag, not a return code.
- AlienFlightF3Config.TargetConfiguration: the hardware revision and motor
  type are parameters. The source reads them from globals that are set by
  code that is not part of this model.
- AlienFlightF3Config.TargetConfiguration: the mixer weights are floats in
  the source. They are kept as integer millionths, and only their exact
  values in rows 0 to 7 are stated.
- AlienFlightF3Config.TargetConfiguration: the LED pins and inversion
  defines are compile-time macros of the board. They are a parameter.
  LED_NUMBER = 3 and MAG_NONE = 1 are taken as given, since their headers
  are not part of this model.
- Bytes.ToInt16: converting a value of 0x8000 or more to `int16_t` is
  implementation-defined in C. The model assumes a two's complement target
  whose compiler reduces the value modulo 2^16, as GCC documents.
- The configuration record is reduced to the fields the override writes. A
  single `rest` component stands for every other field.
