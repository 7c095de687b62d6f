/** `targetConfiguration` of the AlienFlight F3 target
    (src/main/target/ALIENFLIGHTF3/config.c): a one-shot override of the
    default configuration record, driven by the detected hardware revision
    and motor type. */
module AlienFlightF3Config {
  import opened Wrappers

  /** An IO tag naming a pin; `IoTagNone` names no pin. */
  type IoTag = nat

  const IoTagNone: IoTag := 0

  /** LED_NUMBER: the number of status LEDs a configuration describes. */
  const LedNumber := 3

  /** MAG_NONE: no magnetometer. */
  const MagNone := 1

  /** BRUSHED_MOTORS_PWM_RATE: 32 kHz. */
  const BrushedMotorsPwmRate := 32000

  /** Axis indices of the PID arrays. */
  const Roll := 0
  const Pitch := 1

  /** The hardware revision detected at boot; only REV_2 is singled out. */
  datatype HardwareRevision = RevUnknown | Rev1 | Rev2

  /** The motor type detected at boot. */
  datatype MotorType = MotorUnknown | Brushed | Brushless

  /** The target's compile-time LED defines, for LED 0, 1 and 2: the pin of
      `LEDn_A` when it is defined, and whether `LEDn_A_INVERTED` is. */
  datatype LedDefines = LedDefines(pins: seq<Option<IoTag>>, inverted: seq<bool>)

  predicate WellFormed(leds: LedDefines) {
    |leds.pins| == LedNumber && |leds.inverted| == LedNumber
  }

  datatype StatusLedConfig = StatusLedConfig(ledTags: seq<IoTag>, polarity: bv8)
  datatype GyroConfig = GyroConfig(gyroSyncDenom: nat)
  datatype PidConfig = PidConfig(pidProcessDenom: nat)
  datatype RxConfig = RxConfig(spektrumSatBind: nat, spektrumSatBindAutoreset: nat)
  datatype CompassConfig = CompassConfig(magHardware: nat)
  datatype MotorConfig = MotorConfig(motorPwmRate: nat)

  /** Per-axis PID gains, indexed by `Roll`, `Pitch`, `Yaw`, ... */
  datatype PidProfile = PidProfile(p8: seq<nat>, i8: seq<nat>, d8: seq<nat>)

  /** A profile: its PID gains and the rest of the profile. */
  datatype Profile = Profile(pidProfile: PidProfile, rest: seq<int>)

  /** One custom mixer row: throttle, roll, pitch and yaw weights, in
      millionths. */
  datatype MotorMixer = MotorMixer(throttle: int, roll: int, pitch: int, yaw: int)

  /** The configuration record, with the parts the override touches; `rest`
      stands for every field it does not name. */
  datatype MasterConfig = MasterConfig(
    statusLedConfig: StatusLedConfig,
    gyroConfig: GyroConfig,
    pidConfig: PidConfig,
    rxConfig: RxConfig,
    compassConfig: CompassConfig,
    motorConfig: MotorConfig,
    profile: seq<Profile>,
    customMotorMixer: seq<MotorMixer>,
    rest: seq<int>)

  /** The array sizes the C record guarantees for the entries the override
      writes. */
  predicate Fits(c: MasterConfig) {
    && |c.statusLedConfig.ledTags| == LedNumber
    && |c.profile| >= 1
    && |c.profile[0].pidProfile.p8| > Pitch
    && |c.profile[0].pidProfile.i8| > Pitch
    && |c.profile[0].pidProfile.d8| > Pitch
    && |c.customMotorMixer| >= 8
  }

  /** The status LED polarity mask: bit n for each `LEDn_A_INVERTED`. */
  function Polarity(leds: LedDefines): (mask: bv8)
    requires WellFormed(leds)
    ensures mask < 8
    ensures forall n :: 0 <= n < LedNumber ==> ((mask >> n) & 1 == 1 <==> leds.inverted[n])
  {
    (if leds.inverted[0] then 1 else 0) | (if leds.inverted[1] then 2 else 0) | (if leds.inverted[2] then 4 else 0)
  }

  /** `tags` with entry `n` set to the pin, when the pin is defined. */
  function SetIfDefined(tags: seq<IoTag>, n: nat, pin: Option<IoTag>): seq<IoTag>
    requires n < |tags|
  {
    if pin.Some? then tags[n := pin.value] else tags
  }

  /** The REV_2 LED tags: every entry reset to no pin, then each defined
      `LEDn_A` pin stored in entry n. */
  function Rev2LedTags(leds: LedDefines): (tags: seq<IoTag>)
    requires WellFormed(leds)
    ensures |tags| == LedNumber
    ensures forall n :: 0 <= n < LedNumber ==>
      tags[n] == if leds.pins[n].Some? then leds.pins[n].value else IoTagNone
  {
    var reset := seq(LedNumber, _ => IoTagNone);
    SetIfDefined(SetIfDefined(SetIfDefined(reset, 0, leds.pins[0]), 1, leds.pins[1]), 2, leds.pins[2])
  }

  /** The eight custom mixer rows: REAR_R, FRONT_R, REAR_L, FRONT_L,
      MIDFRONT_R, MIDFRONT_L, MIDREAR_R, MIDREAR_L. */
  const AlienFlightMixer: seq<MotorMixer> := [
    MotorMixer(1000000, -414178, 1000000, -1000000),
    MotorMixer(1000000, -414178, -1000000, 1000000),
    MotorMixer(1000000, 414178, 1000000, 1000000),
    MotorMixer(1000000, 414178, -1000000, -1000000),
    MotorMixer(1000000, -1000000, -414178, -1000000),
    MotorMixer(1000000, 1000000, -414178, 1000000),
    MotorMixer(1000000, -1000000, 414178, 1000000),
    MotorMixer(1000000, 1000000, 414178, -1000000)
  ]

  /** Profile 0's roll and pitch gains set to P 90, I 44, D 60. */
  function AlienFlightPids(p: PidProfile): PidProfile
    requires |p.p8| > Pitch && |p.i8| > Pitch && |p.d8| > Pitch
  {
    PidProfile(p.p8[Roll := 90][Pitch := 90], p.i8[Roll := 44][Pitch := 44], p.d8[Roll := 60][Pitch := 60])
  }

  /** `targetConfiguration`, statement by statement. */
  function TargetConfiguration(c: MasterConfig, rev: HardwareRevision, motor: MotorType, leds: LedDefines): (r: MasterConfig)
    requires Fits(c) && WellFormed(leds)
    ensures Fits(r)
    // LEDs: rewritten on REV_2 only.
    ensures rev == Rev2 ==> r.statusLedConfig == StatusLedConfig(Rev2LedTags(leds), Polarity(leds))
    ensures rev != Rev2 ==> r.statusLedConfig == c.statusLedConfig
    // Loop denominators: halved on other revisions; brushed motors force
    // the PID denominator to 1 whatever the revision.
    ensures r.gyroConfig.gyroSyncDenom == if rev == Rev2 then c.gyroConfig.gyroSyncDenom else 2
    ensures r.pidConfig.pidProcessDenom ==
      if motor == Brushed then 1 else if rev == Rev2 then c.pidConfig.pidProcessDenom else 2
    ensures r.motorConfig.motorPwmRate == if motor == Brushed then 32000 else c.motorConfig.motorPwmRate
    // Receiver and compass: always.
    ensures r.rxConfig == RxConfig(5, 1)
    ensures r.compassConfig == CompassConfig(MagNone)
    // Profile 0 roll and pitch gains.
    ensures var g := r.profile[0].pidProfile;
      && g.p8[Roll] == 90 && g.i8[Roll] == 44 && g.d8[Roll] == 60
      && g.p8[Pitch] == 90 && g.i8[Pitch] == 44 && g.d8[Pitch] == 60
    ensures r.customMotorMixer[..8] == AlienFlightMixer
  {
    var c1 :=
      if rev == Rev2 then
        c.(statusLedConfig := StatusLedConfig(Rev2LedTags(leds), Polarity(leds)))
      else
        c.(gyroConfig := c.gyroConfig.(gyroSyncDenom := 2), pidConfig := c.pidConfig.(pidProcessDenom := 2));
    var c2 := c1.(rxConfig := c1.rxConfig.(spektrumSatBind := 5, spektrumSatBindAutoreset := 1),
                  compassConfig := c1.compassConfig.(magHardware := MagNone));
    var c3 :=
      if motor == Brushed then
        c2.(motorConfig := c2.motorConfig.(motorPwmRate := BrushedMotorsPwmRate), pidConfig := c2.pidConfig.(pidProcessDenom := 1))
      else c2;
    var c4 := c3.(profile := c3.profile[0 := c3.profile[0].(pidProfile := AlienFlightPids(c3.profile[0].pidProfile))]);
    c4.(customMotorMixer := AlienFlightMixer + c4.customMotorMixer[8..])
  }

  /** The override leaves everything it does not name as it was: the rest of
      the record, the other profiles, the rest of profile 0, the yaw and
      higher PID entries, the mixer rows from 8 on; and the motor settings
      unless the motors are brushed. */
  lemma TargetConfigurationFrame(c: MasterConfig, rev: HardwareRevision, motor: MotorType, leds: LedDefines)
    requires Fits(c) && WellFormed(leds)
    ensures var r := TargetConfiguration(c, rev, motor, leds);
      && r.rest == c.rest
      && |r.profile| == |c.profile|
      && (forall k :: 1 <= k < |c.profile| ==> r.profile[k] == c.profile[k])
      && r.profile[0].rest == c.profile[0].rest
      && |r.profile[0].pidProfile.p8| == |c.profile[0].pidProfile.p8|
      && |r.profile[0].pidProfile.i8| == |c.profile[0].pidProfile.i8|
      && |r.profile[0].pidProfile.d8| == |c.profile[0].pidProfile.d8|
      && (forall a :: Pitch < a < |c.profile[0].pidProfile.p8| ==> r.profile[0].pidProfile.p8[a] == c.profile[0].pidProfile.p8[a])
      && (forall a :: Pitch < a < |c.profile[0].pidProfile.i8| ==> r.profile[0].pidProfile.i8[a] == c.profile[0].pidProfile.i8[a])
      && (forall a :: Pitch < a < |c.profile[0].pidProfile.d8| ==> r.profile[0].pidProfile.d8[a] == c.profile[0].pidProfile.d8[a])
      && r.customMotorMixer[8..] == c.customMotorMixer[8..]
      && (motor != Brushed ==> r.motorConfig == c.motorConfig)
  {
  }

  /** Applying the override twice gives the same record as applying it
      once. */
  lemma TargetConfigurationIdempotent(c: MasterConfig, rev: HardwareRevision, motor: MotorType, leds: LedDefines)
    requires Fits(c) && WellFormed(leds)
    ensures TargetConfiguration(TargetConfiguration(c, rev, motor, leds), rev, motor, leds) == TargetConfiguration(c, rev, motor, leds)
  {
    var r := TargetConfiguration(c, rev, motor, leds);
    var rr := TargetConfiguration(r, rev, motor, leds);
    var g, gg := r.profile[0].pidProfile, rr.profile[0].pidProfile;
    assert gg.p8 == g.p8 && gg.i8 == g.i8 && gg.d8 == g.d8;
    assert rr.profile[0] == r.profile[0];
    assert rr.profile == r.profile;
    assert rr.customMotorMixer == r.customMotorMixer;
  }
}
