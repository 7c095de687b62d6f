/** The BMI160 driver's state: the latched detection, initialisation and
    EXTI-setup flags, and the data-ready flag shared with the interrupt
    handler. Every operation is a function from a state (and the bus oracle)
    to the next state and what it did. */
module Bmi160Driver {
  import opened Bytes
  import opened Wrappers
  import opened Bmi160Regs
  import opened Bmi160Bus
  import opened Bmi160Config

  /** The driver's static flags. `extiInitDone` is the function-local static
      of `bmi160IntExtiInit`. */
  datatype Driver = Driver(detected: bool, initDone: bool, extiInitDone: bool, dataReady: bool)

  /** The flags at reset. */
  const PowerOn := Driver(false, false, false, false)

  /** The invariant every reachable state keeps: initialisation only ever
      happens on a detected chip. */
  predicate Valid(d: Driver) {
    d.initDone ==> d.detected
  }

  /** What `BMI160_Detect` reports, the next state, and its bus traffic. */
  datatype Detection = Detection(found: bool, driver: Driver, transfers: seq<Transfer>)

  /** `BMI160_Detect`: once the chip has been detected, it reports success
      without touching the bus; otherwise it wakes the SPI interface with a
      dummy read of 0x7F, then reads the chip ID and latches detection when
      the ID is 0xD1. */
  function Detect(d: Driver, bus: Bus): (r: Detection)
    ensures r.found <==> d.detected || bus.read(RegChipId) == ChipIdBmi160
    ensures r.driver == d.(detected := r.found)
    ensures d.detected ==> r.transfers == []
    ensures !d.detected ==> r.transfers == [Read(RegSpiWake), Read(RegChipId)]
  {
    if d.detected then Detection(true, d, [])
    else
      var transfers := [Read(RegSpiWake), Read(RegChipId)];
      if bus.read(RegChipId) != ChipIdBmi160 then Detection(false, d, transfers)
      else Detection(true, d.(detected := true), transfers)
  }

  /** The next state of `BMI160_Init` and its bus traffic. */
  datatype InitOutcome = InitOutcome(driver: Driver, transfers: seq<Transfer>)

  /** `BMI160_Init`: nothing happens when initialisation is already done or
      the chip was not detected; otherwise the configuration sequence runs
      and initialisation is latched exactly when it returns 0. */
  function Init(d: Driver, bus: Bus): (r: InitOutcome)
    ensures d.initDone || !d.detected ==> r == InitOutcome(d, [])
    ensures !d.initDone && d.detected ==>
      && r.driver == d.(initDone := Config(bus).code == 0)
      && r.transfers == Config(bus).transfers
      && r.transfers != []
  {
    if d.initDone || !d.detected then InitOutcome(d, [])
    else
      var result := Config(bus);
      ConfigStartsWithGyroPowerUp(bus);
      if result.code != 0 then InitOutcome(d, result.transfers)
      else InitOutcome(d.(initDone := true), result.transfers)
  }

  /** What `bmi160IntExtiInit` did: the next state, and whether it set up
      the interrupt line (pin, handler registration, rising-edge trigger). */
  datatype ExtiOutcome = ExtiOutcome(driver: Driver, setUp: bool)

  /** `bmi160IntExtiInit`: sets the interrupt line up on the first call
      only. */
  function ExtiInit(d: Driver): (r: ExtiOutcome)
    ensures r.setUp <==> !d.extiInitDone
    ensures r.driver == d.(extiInitDone := true)
  {
    if d.extiInitDone then ExtiOutcome(d, false)
    else ExtiOutcome(d.(extiInitDone := true), true)
  }

  /** One g in accelerometer counts, as `bmi160SpiAccInit` sets it. */
  const AccOneG := 512 * 8

  /** The range the configuration sequence writes to ACC_RANGE (step 5,
      failing with -5) is +-8 g, and at that range the full int16 scale,
      2^15 counts, is 8 g: one g is `AccOneG` counts. */
  lemma AccOneGMatchesRange()
    ensures ConfigPlan[5] == Put(RegAccRange, Range8G, -5)
    ensures AccRangeOf(ConfigPlan[5].data) == Some(8)
    ensures AccOneG * AccRangeOf(ConfigPlan[5].data).value == 0x8000
  {
  }

  /** What `bmi160SpiAccInit` did. */
  datatype AccInitOutcome = AccInitOutcome(driver: Driver, transfers: seq<Transfer>, extiSetUp: bool, acc1G: int)

  /** `bmi160SpiAccInit`: initialise the chip, set up the interrupt line,
      and report one g as 4096 counts. */
  function AccInit(d: Driver, bus: Bus): (r: AccInitOutcome)
    ensures r.acc1G == 4096
    ensures r.driver.detected == d.detected && r.driver.dataReady == d.dataReady
    ensures r.driver.initDone == Init(d, bus).driver.initDone
    ensures r.transfers == Init(d, bus).transfers
    ensures r.driver.extiInitDone && (r.extiSetUp <==> !d.extiInitDone)
  {
    var init := Init(d, bus);
    var exti := ExtiInit(init.driver);
    AccInitOutcome(exti.driver, init.transfers, exti.setUp, AccOneG)
  }

  /** `bmi160SpiGyroInit`: the low-pass filter argument is ignored. Nothing
      happens when initialisation is already done or the chip was not
      detected; otherwise the configuration sequence runs and initialisation
      is latched exactly when it returns 0. */
  function GyroInit(d: Driver, bus: Bus, lpf: Byte): (r: InitOutcome)
    ensures d.initDone || !d.detected ==> r == InitOutcome(d, [])
    ensures !d.initDone && d.detected ==>
      && r.driver == d.(initDone := Config(bus).code == 0)
      && r.transfers == Config(bus).transfers
  {
    Init(d, bus)
  }

  /** `bmi160ExtiHandler`: a data-ready edge raises the flag, whatever its
      previous value. */
  function ExtiHandler(d: Driver): (r: Driver)
    ensures r.dataReady
    ensures r.(dataReady := d.dataReady) == d
  {
    d.(dataReady := true)
  }

  /** The next state and the answer of `checkBMI160DataReady`. */
  datatype PollResult = PollResult(driver: Driver, ready: bool)

  /** `checkBMI160DataReady`: reports whether the flag was raised, and
      clears it. */
  function CheckDataReady(d: Driver): (r: PollResult)
    ensures r.ready == d.dataReady
    ensures !r.driver.dataReady
    ensures r.driver.(dataReady := d.dataReady) == d
  {
    if d.dataReady then PollResult(d.(dataReady := false), true)
    else PollResult(d, false)
  }

  /** One event of the data-ready handshake: the interrupt handler runs on
      an edge, or the gyro task polls the flag. */
  datatype Event = Edge | Check

  /** The reference meaning of the flag after `events`, starting from
      `initial`: some edge came after the last check, or there was no check
      at all and the flag started raised. */
  ghost predicate PendingAfter(initial: bool, events: seq<Event>) {
    || (exists j :: 0 <= j < |events| && events[j] == Edge && forall k :: j < k < |events| ==> events[k] == Edge)
    || (initial && forall k :: 0 <= k < |events| ==> events[k] == Edge)
  }

  /** After an edge the flag is pending. */
  lemma PendingAfterEdge(initial: bool, events: seq<Event>)
    ensures PendingAfter(initial, events + [Edge])
  {
    var e := events + [Edge];
    assert e[|events|] == Edge;
  }

  /** After a check the flag is not pending. */
  lemma NotPendingAfterCheck(initial: bool, events: seq<Event>)
    ensures !PendingAfter(initial, events + [Check])
  {
    var e := events + [Check];
    assert e[|events|] == Check;
  }

  /** A run of the handshake: the final state and the positions of the
      checks that reported data ready. */
  datatype HandshakeRun = HandshakeRun(driver: Driver, wakes: set<nat>)

  /** Runs a sequence of handler and poll events, in order. A check reports
      data ready exactly when an edge came after the previous check (or, for
      the first check, when the flag started raised or an edge came before
      it); the flag ends raised exactly when an edge came after the last
      check; nothing but the flag changes. */
  function Handshake(d: Driver, events: seq<Event>): (r: HandshakeRun)
    ensures forall p :: p in r.wakes <==> 0 <= p < |events| && events[p] == Check && PendingAfter(d.dataReady, events[..p])
    ensures r.driver.dataReady <==> PendingAfter(d.dataReady, events)
    ensures r.driver == d.(dataReady := r.driver.dataReady)
  {
    if |events| == 0 then HandshakeRun(d, {})
    else
      var n := |events| - 1;
      var before := Handshake(d, events[..n]);
      assert events[..n + 1] == events;
      assert forall p :: 0 <= p < n ==> events[..n][..p] == events[..p];
      if events[n] == Edge then
        PendingAfterEdge(d.dataReady, events[..n]);
        HandshakeRun(ExtiHandler(before.driver), before.wakes)
      else
        NotPendingAfterCheck(d.dataReady, events[..n]);
        var poll := CheckDataReady(before.driver);
        HandshakeRun(poll.driver, if poll.ready then before.wakes + {n} else before.wakes)
  }

  /** `n` handler calls. */
  function Edges(n: nat): (e: seq<Event>)
    ensures |e| == n && forall k :: 0 <= k < n ==> e[k] == Edge
  {
    seq(n, _ => Edge)
  }

  /** After one or more edges, data is pending. */
  lemma PendingAfterEdges(initial: bool, n: nat)
    requires n >= 1
    ensures PendingAfter(initial, Edges(n))
  {
    assert Edges(n) == Edges(n - 1) + [Edge];
    PendingAfterEdge(initial, Edges(n - 1));
  }

  /** After edges and two checks, only the first check can wake. */
  lemma OnlyFirstCheckWakes(d: Driver, n: nat, p: nat)
    requires n >= 1
    ensures p in Handshake(d, Edges(n) + [Check, Check]).wakes ==> p == n
  {
    var once := Edges(n) + [Check];
    var e := Edges(n) + [Check, Check];
    assert e[..n + 1] == once;
    NotPendingAfterCheck(d.dataReady, Edges(n));
    if p in Handshake(d, e).wakes {
      assert p < n + 2 && e[p] == Check;
    }
  }

  /** Any number of edges before one check give exactly one wake, and a
      second check with no edge in between reports nothing. */
  lemma Coalescing(d: Driver, n: nat)
    requires n >= 1
    ensures Handshake(d, Edges(n) + [Check, Check]).wakes == {n}
    ensures !Handshake(d, Edges(n) + [Check, Check]).driver.dataReady
  {
    var e := Edges(n) + [Check, Check];
    FirstCheckWakes(d, n);
    forall p | p in Handshake(d, e).wakes ensures p == n {
      OnlyFirstCheckWakes(d, n, p);
    }
    assert e == (Edges(n) + [Check]) + [Check];
    NotPendingAfterCheck(d.dataReady, Edges(n) + [Check]);
  }

  /** The first check after one or more edges wakes. */
  lemma FirstCheckWakes(d: Driver, n: nat)
    requires n >= 1
    ensures n in Handshake(d, Edges(n) + [Check, Check]).wakes
  {
    var e := Edges(n) + [Check, Check];
    assert e[..n] == Edges(n);
    PendingAfterEdges(d.dataReady, n);
  }

  /** No spurious wakes: between two checks that both report data ready
      there is an edge. */
  lemma WakesNeedEdges(d: Driver, events: seq<Event>, p: nat, q: nat)
    ensures p in Handshake(d, events).wakes && q in Handshake(d, events).wakes && p < q ==>
      exists j :: p < j < q && events[j] == Edge
  {
    var r := Handshake(d, events);
    if p in r.wakes && q in r.wakes && p < q {
      assert events[p] == Check && q < |events|;
      var prefix := events[..q];
      assert PendingAfter(d.dataReady, prefix);
      assert prefix[p] == Check;
      assert !(forall k :: 0 <= k < |prefix| ==> prefix[k] == Edge);
      var j :| 0 <= j < |prefix| && prefix[j] == Edge && forall k :: j < k < |prefix| ==> prefix[k] == Edge;
      assert j != p;
      assert events[j] == Edge;
    }
  }

  /** No lost wakes: the first check after an edge reports data ready. */
  lemma EdgesAreSeen(d: Driver, events: seq<Event>, j: nat, q: nat)
    requires j < q < |events| && events[j] == Edge && events[q] == Check
    requires forall k :: j < k < q ==> events[k] == Edge
    ensures q in Handshake(d, events).wakes
  {
    var prefix := events[..q];
    assert prefix[j] == Edge;
    assert forall k :: j < k < |prefix| ==> prefix[k] == events[k];
  }

  /** Detection is latched: once it has succeeded, further calls succeed,
      leave the state alone and do not touch the bus, whatever the bus. */
  lemma DetectIdempotent(d: Driver, bus: Bus, bus': Bus)
    requires Detect(d, bus).found
    ensures Detect(Detect(d, bus).driver, bus') == Detection(true, Detect(d, bus).driver, [])
  {
  }

  /** Initialisation is latched: after a successful one, further calls
      change nothing and do not touch the bus. */
  lemma InitIdempotent(d: Driver, bus: Bus, bus': Bus)
    requires Init(d, bus).driver.initDone
    ensures Init(Init(d, bus).driver, bus') == InitOutcome(Init(d, bus).driver, [])
  {
  }

  /** The interrupt line is set up once: a second call does nothing. */
  lemma ExtiInitIdempotent(d: Driver)
    ensures !ExtiInit(ExtiInit(d).driver).setUp
    ensures ExtiInit(ExtiInit(d).driver).driver == ExtiInit(d).driver
  {
  }

  /** A call into the driver from the rest of the firmware. */
  datatype Call =
    | DetectCall(bus: Bus)      // bmi160SpiAccDetect / bmi160SpiGyroDetect
    | AccInitCall(bus: Bus)     // bmi160SpiAccInit
    | GyroInitCall(bus: Bus)    // bmi160SpiGyroInit
    | EdgeCall                  // bmi160ExtiHandler
    | CheckCall                 // checkBMI160DataReady

  /** Latched flags never go from set to clear. */
  predicate Latched(d: Driver, d': Driver) {
    && (d.detected ==> d'.detected)
    && (d.initDone ==> d'.initDone)
    && (d.extiInitDone ==> d'.extiInitDone)
  }

  /** What one call did: the next state, whether it set up the interrupt
      line, and whether it ran the configuration sequence to success. */
  datatype CallOutcome = CallOutcome(driver: Driver, extiSetUp: bool, configured: bool)

  /** Whether `BMI160_Init` on `d` runs the configuration sequence and it
      returns 0. */
  predicate Configures(d: Driver, bus: Bus) {
    d.detected && !d.initDone && Config(bus).code == 0
  }

  /** One call. */
  function Apply(d: Driver, c: Call): (r: CallOutcome)
    ensures Valid(d) ==> Valid(r.driver)
    ensures Latched(d, r.driver)
    ensures r.extiSetUp ==> !d.extiInitDone
    ensures r.configured ==> !d.initDone && r.driver.initDone
  {
    match c
    case DetectCall(bus) => CallOutcome(Detect(d, bus).driver, false, false)
    case AccInitCall(bus) =>
      var a := AccInit(d, bus);
      CallOutcome(a.driver, a.extiSetUp, Configures(d, bus))
    case GyroInitCall(bus) => CallOutcome(GyroInit(d, bus, 0).driver, false, Configures(d, bus))
    case EdgeCall => CallOutcome(ExtiHandler(d), false, false)
    case CheckCall => CallOutcome(CheckDataReady(d).driver, false, false)
  }

  /** A run of calls: the final state and how many times the interrupt line
      was set up and the configuration sequence succeeded. */
  datatype Lifetime = Lifetime(driver: Driver, extiSetUps: nat, configurations: nat)

  /** Runs calls in order. Whatever the calls and whatever the bus answers,
      the invariant is kept, latched flags stay set, the interrupt line is
      set up at most once and the chip is configured successfully at most
      once (never again once the flags say it already happened). */
  function Run(d: Driver, calls: seq<Call>): (r: Lifetime)
    ensures Valid(d) ==> Valid(r.driver)
    ensures Latched(d, r.driver)
    ensures r.extiSetUps <= (if d.extiInitDone then 0 else 1)
    ensures r.configurations <= (if d.initDone then 0 else 1)
    ensures r.extiSetUps == 1 ==> r.driver.extiInitDone
    ensures r.configurations == 1 ==> r.driver.initDone
    decreases |calls|
  {
    if |calls| == 0 then Lifetime(d, 0, 0)
    else
      var first := Apply(d, calls[0]);
      var rest := Run(first.driver, calls[1..]);
      Lifetime(rest.driver,
               (if first.extiSetUp then 1 else 0) + rest.extiSetUps,
               (if first.configured then 1 else 0) + rest.configurations)
  }

  /** From power-on, the driver's flags stay consistent and each one-time
      action happens at most once. */
  lemma FromPowerOn(calls: seq<Call>)
    ensures Valid(Run(PowerOn, calls).driver)
    ensures Run(PowerOn, calls).extiSetUps <= 1 && Run(PowerOn, calls).configurations <= 1
  {
  }
}
