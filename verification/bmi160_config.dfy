/** `BMI160_Config`: the ordered configuration sequence, which stops at the
    first failing step and returns that step's error code. */
module Bmi160Config {
  import opened Bytes
  import opened Bmi160Regs
  import opened Bmi160Bus

  /** An error code (0 for success) and the transfers performed. */
  datatype ConfigResult = ConfigResult(code: int, transfers: seq<Transfer>)

  /** One step of the configuration sequence, with the code it fails with. */
  datatype Step =
    | Put(reg: Byte, data: Byte, code: int)   // write a constant
    | CheckPmu(code: int)                     // read PMU_STATUS, require normal mode
    | EnableOffset(code: int)                 // read OFFSET_0, write it back with bits 7:6 set

  /** Whether a step passes on `bus`. */
  predicate StepPasses(s: Step, bus: Bus) {
    match s
    case Put(reg, data, _) => bus.writeStatus(reg, data) == 0
    case CheckPmu(_) => PmuNormal(bus.read(RegPmuStat))
    case EnableOffset(_) => bus.writeStatus(RegOffset0, OffsetEnable(bus.read(RegOffset0))) == 0
  }

  /** The transfers a step performs, whether it passes or not. */
  function StepTransfers(s: Step, bus: Bus): seq<Transfer> {
    match s
    case Put(reg, data, _) => [Write(reg, data)]
    case CheckPmu(_) => [Read(RegPmuStat)]
    case EnableOffset(_) => [Read(RegOffset0), Write(RegOffset0, OffsetEnable(bus.read(RegOffset0)))]
  }

  /** The configuration sequence as a table, in the driver's order. The code
      -3 belongs to two steps: the power-mode check and the ACC_CONF write. */
  const ConfigPlan: seq<Step> := [
    Put(RegCmd, PmuCmdGyrNormal, -1),
    Put(RegCmd, PmuCmdAccNormal, -2),
    CheckPmu(-3),
    Put(RegAccConf, BwpNormal | Odr800Hz, -3),
    Put(RegGyrConf, BwpNormal | Odr3200Hz, -4),
    Put(RegAccRange, Range8G, -5),
    Put(RegGyrRange, Range2000Dps, -6),
    EnableOffset(-7),
    Put(RegIntEn1, IntEn1Drdy, -8),
    Put(RegIntOutCtrl, IntOutCtrlInt1Config, -9),
    Put(RegIntMap1, IntMap1Int1Drdy, -10)
  ]

  /** The transfers of the first `n` steps of a plan, in order. */
  function Transcript(plan: seq<Step>, n: nat, bus: Bus): seq<Transfer>
    requires n <= |plan|
  {
    if n == 0 then [] else Transcript(plan, n - 1, bus) + StepTransfers(plan[n - 1], bus)
  }

  /** The transfers of fewer steps are a prefix of those of more. */
  lemma {:induction false} TranscriptPrefix(plan: seq<Step>, m: nat, n: nat, bus: Bus)
    requires m <= n <= |plan|
    ensures Transcript(plan, m, bus) <= Transcript(plan, n, bus)
    decreases n
  {
    if m < n {
      TranscriptPrefix(plan, m, n - 1, bus);
    }
  }

  /** Runs the steps of a plan from step `k` on, after the transfers `done`
      of the earlier steps, stopping at the first step that fails. The code
      returned is 0 or the code of one of those steps. */
  function RunFrom(plan: seq<Step>, k: nat, done: seq<Transfer>, bus: Bus): (r: ConfigResult)
    requires k <= |plan|
    ensures r.code == 0 || exists i :: k <= i < |plan| && r.code == plan[i].code
    decreases |plan| - k
  {
    if k == |plan| then ConfigResult(0, done)
    else if !StepPasses(plan[k], bus) then ConfigResult(plan[k].code, done + StepTransfers(plan[k], bus))
    else RunFrom(plan, k + 1, done + StepTransfers(plan[k], bus), bus)
  }

  /** Runs a whole plan. */
  function RunPlan(plan: seq<Step>, bus: Bus): ConfigResult {
    RunFrom(plan, 0, [], bus)
  }

  /** No step of the plan fails with 0. */
  predicate NonzeroCodes(plan: seq<Step>) {
    forall i :: 0 <= i < |plan| ==> plan[i].code != 0
  }

  /** Step `i` is the first failing step of the plan. */
  predicate FirstFailing(plan: seq<Step>, bus: Bus, i: int) {
    && 0 <= i < |plan|
    && !StepPasses(plan[i], bus)
    && forall j :: 0 <= j < i ==> StepPasses(plan[j], bus)
  }

  /** Every step of the plan passes. */
  predicate AllPass(plan: seq<Step>, bus: Bus) {
    forall i :: 0 <= i < |plan| ==> StepPasses(plan[i], bus)
  }

  /** Running a plan from step `k`, when the steps before it passed. */
  lemma {:induction false} RunFromFirstFailure(plan: seq<Step>, k: nat, bus: Bus)
    requires NonzeroCodes(plan)
    requires k <= |plan|
    requires forall j :: 0 <= j < k ==> StepPasses(plan[j], bus)
    ensures RunFrom(plan, k, Transcript(plan, k, bus), bus).code == 0 <==> AllPass(plan, bus)
    ensures AllPass(plan, bus) ==>
      RunFrom(plan, k, Transcript(plan, k, bus), bus).transfers == Transcript(plan, |plan|, bus)
    ensures forall i :: FirstFailing(plan, bus, i) ==>
      RunFrom(plan, k, Transcript(plan, k, bus), bus) == ConfigResult(plan[i].code, Transcript(plan, i + 1, bus))
    decreases |plan| - k
  {
    if k < |plan| {
      if StepPasses(plan[k], bus) {
        RunFromFirstFailure(plan, k + 1, bus);
      } else {
        assert FirstFailing(plan, bus, k);
        forall i | FirstFailing(plan, bus, i) ensures i == k {
        }
      }
    }
  }

  /** Running a plan succeeds exactly when every step passes, and then all
      the plan's transfers happen; otherwise it returns the code of the first
      failing step, after performing the transfers up to and including that
      step and none after it. */
  lemma RunPlanFirstFailure(plan: seq<Step>, bus: Bus)
    requires NonzeroCodes(plan)
    ensures RunPlan(plan, bus).code == 0 <==> AllPass(plan, bus)
    ensures AllPass(plan, bus) ==> RunPlan(plan, bus).transfers == Transcript(plan, |plan|, bus)
    ensures forall i :: FirstFailing(plan, bus, i) ==>
      RunPlan(plan, bus) == ConfigResult(plan[i].code, Transcript(plan, i + 1, bus))
  {
    RunFromFirstFailure(plan, 0, bus);
  }

  /** `BMI160_Config`: the table run on `bus`. It returns 0 exactly when
      every step passes, after performing all the table's transfers, and
      otherwise the code of the first failing step, after performing the
      transfers up to and including that step and none after it. */
  function Config(bus: Bus): (r: ConfigResult)
    ensures r.code == 0 <==> AllPass(ConfigPlan, bus)
    ensures AllPass(ConfigPlan, bus) ==> r.transfers == Transcript(ConfigPlan, |ConfigPlan|, bus)
    ensures forall i :: FirstFailing(ConfigPlan, bus, i) ==>
      r == ConfigResult(ConfigPlan[i].code, Transcript(ConfigPlan, i + 1, bus))
  {
    ConfigPlanCodes();
    RunPlanFirstFailure(ConfigPlan, bus);
    RunPlan(ConfigPlan, bus)
  }

  /** The error codes of the table, in order: -1, -2, -3, -3, -4, ..., -10. */
  lemma ConfigPlanCodes()
    ensures |ConfigPlan| == 11
    ensures NonzeroCodes(ConfigPlan)
    ensures forall i :: 0 <= i < 3 ==> ConfigPlan[i].code == -(i + 1)
    ensures forall i :: 3 <= i < 11 ==> ConfigPlan[i].code == -i
    ensures ConfigPlan[2].CheckPmu? && ConfigPlan[3].Put? && ConfigPlan[3].reg == RegAccConf
  {
  }

  /** The index of the first failing step of a plan, searching from `k`. */
  function FirstFailureFrom(plan: seq<Step>, bus: Bus, k: nat): (i: nat)
    requires k <= |plan|
    requires forall j :: 0 <= j < k ==> StepPasses(plan[j], bus)
    requires !AllPass(plan, bus)
    ensures FirstFailing(plan, bus, i)
    decreases |plan| - k
  {
    if !StepPasses(plan[k], bus) then k else FirstFailureFrom(plan, bus, k + 1)
  }

  /** The codes `BMI160_Config` can return: 0 and -1 to -10. */
  lemma ConfigCodeRange(bus: Bus)
    ensures -10 <= Config(bus).code <= 0
  {
    ConfigPlanCodes();
    if !AllPass(ConfigPlan, bus) {
      var i := FirstFailureFrom(ConfigPlan, bus, 0);
    }
  }

  /** Every run of the sequence starts by putting the gyroscope in normal
      mode, so `BMI160_Config` always uses the bus. */
  lemma ConfigStartsWithGyroPowerUp(bus: Bus)
    ensures Config(bus).transfers != []
    ensures Config(bus).transfers[0] == Write(RegCmd, PmuCmdGyrNormal)
  {
    ConfigPlanCodes();
    var n := if AllPass(ConfigPlan, bus) then |ConfigPlan| else FirstFailureFrom(ConfigPlan, bus, 0) + 1;
    TranscriptPrefix(ConfigPlan, 1, n, bus);
    assert Transcript(ConfigPlan, 1, bus) == [Write(RegCmd, PmuCmdGyrNormal)];
  }

  /** With the driver's own write routine, which always reports 0, the only
      step that can fail is the power-mode check. */
  lemma ConfigOnSourceBus(regs: Byte -> Byte)
    ensures Config(SourceBus(regs)).code == (if PmuNormal(regs(RegPmuStat)) then 0 else -3)
    ensures !PmuNormal(regs(RegPmuStat)) ==>
      Config(SourceBus(regs)).transfers == [Write(RegCmd, PmuCmdGyrNormal), Write(RegCmd, PmuCmdAccNormal), Read(RegPmuStat)]
    ensures PmuNormal(regs(RegPmuStat)) ==>
      Write(RegOffset0, OffsetEnable(regs(RegOffset0))) in Config(SourceBus(regs)).transfers
  {
    var bus := SourceBus(regs);
    var p := ConfigPlan;
    ConfigPlanCodes();
    if PmuNormal(regs(RegPmuStat)) {
      assert AllPass(p, bus) by {
        forall i | 0 <= i < |p| ensures StepPasses(p[i], bus) {
        }
      }
      assert p[7] == EnableOffset(-7);
      var before := Transcript(p, 7, bus);
      assert Transcript(p, 8, bus) == before + [Read(RegOffset0), Write(RegOffset0, OffsetEnable(regs(RegOffset0)))];
      TranscriptPrefix(p, 8, |p|, bus);
      assert Transcript(p, 8, bus)[|before| + 1] == Write(RegOffset0, OffsetEnable(regs(RegOffset0)));
      assert Config(bus).transfers[|before| + 1] == Write(RegOffset0, OffsetEnable(regs(RegOffset0)));
    } else {
      assert FirstFailing(p, bus, 2);
      assert Transcript(p, 1, bus) == [Write(RegCmd, PmuCmdGyrNormal)];
      assert Transcript(p, 2, bus) == [Write(RegCmd, PmuCmdGyrNormal), Write(RegCmd, PmuCmdAccNormal)];
    }
  }

  /** A device whose PMU_STATUS reads 0 (both sensors suspended). */
  function SuspendedBus(): Bus {
    SourceBus(reg => 0)
  }

  /** A device in normal mode that rejects the ACC_CONF write. */
  function AccConfRejectedBus(): Bus {
    Bus(reg => if reg == RegPmuStat then 0x14 else 0,
        (reg, data) => if reg == RegAccConf then 1 else 0)
  }

  /** The code -3 does not identify the failing step: a failed power-mode
      check and a failed ACC_CONF write both return it. */
  lemma CodeMinus3IsShared()
    ensures Config(SuspendedBus()).code == -3 && Config(AccConfRejectedBus()).code == -3
    ensures FirstFailing(ConfigPlan, SuspendedBus(), 2)
    ensures FirstFailing(ConfigPlan, AccConfRejectedBus(), 3)
  {
    ConfigPlanCodes();
  }
}
