/**
 * What `RiskEngine.calculate` promises about its output, stated on
 * `RiskEngine.Calculate` for every input that passed the RiskCalcInput
 * constraints.
 */
module RiskProperties {
  import opened Wrappers
  import opened Steps
  import opened Models
  import opened RiskEngine

  /** The raw volume is exactly the volume whose risk at the stop is the target. */
  lemma RawVolumeSpendsTarget(i: RiskCalcInput)
    requires ValidRiskCalcInput(i)
    ensures VolumeRaw(i) * (i.stopPips * i.pipValuePerLot) == Calculate(i).targetRiskAmount
  {
    VolumeRawPositive(i);
  }

  /** The reported raw volume is the raw volume truncated to 4 decimals. */
  lemma ReportedRawVolumeTruncated(i: RiskCalcInput)
    requires ValidRiskCalcInput(i)
    ensures var q := Calculate(i).volumeRaw;
      q <= VolumeRaw(i) < q + 0.0001 && IsMultiple(q, 0.0001)
  {
    VolumeRawPositive(i);
  }

  /**
   * With valid inputs the volume is the larger of the step-floor of the raw
   * volume and the step-ceiling of the minimum.
   */
  lemma VolumeIsStepFloorOrMinimum(i: RiskCalcInput)
    requires ValidRiskCalcInput(i)
    ensures var f := FloorSteps(VolumeRaw(i), i.volumeStep);
            var m := CeilSteps(i.minVolume, i.volumeStep);
            Calculate(i).volume == (if f > m then f else m)
  {
    FinalVolumeShape(i);
  }

  /**
   * The minimum is rounded up to the step grid, so the volume never falls
   * below the broker minimum, and the rounded minimum is the smallest
   * whole number of steps that reaches it.
   */
  lemma VolumeAtLeastMinimum(i: RiskCalcInput)
    requires ValidRiskCalcInput(i)
    ensures i.minVolume <= MinValidVolume(i) < i.minVolume + i.volumeStep
    ensures Calculate(i).volume >= MinValidVolume(i)
    ensures forall k: int :: Scaled(k, i.volumeStep) >= i.minVolume ==> Scaled(k, i.volumeStep) >= MinValidVolume(i)
  {
    FinalVolumeShape(i);
    forall k: int | Scaled(k, i.volumeStep) >= i.minVolume
      ensures Scaled(k, i.volumeStep) >= MinValidVolume(i)
    {
      CeilStepsIsLeast(i.minVolume, i.volumeStep, k);
    }
  }

  /** allowed iff the stop is within the maximum; a rejected stop is reported first. */
  lemma AllowedIffStopWithinMax(i: RiskCalcInput)
    requires ValidRiskCalcInput(i)
    ensures Calculate(i).allowed <==> i.stopPips <= i.maxStopPips
    ensures !Calculate(i).allowed ==>
      |Calculate(i).warnings| >= 1 && Calculate(i).warnings[0] == StopExceedsMax(i.stopPips, i.maxStopPips)
    ensures Calculate(i).allowed ==> forall w <- Calculate(i).warnings :: !w.StopExceedsMax?
  {}

  /** The position of each kind of warning in the canonical order. */
  function WarningRank(w: RiskWarning): nat {
    match w
    case StopExceedsMax(_, _) => 0
    case VolumeFlooredToMinimum(_) => 1
    case ActualRiskExceedsTarget(_, _) => 2
  }

  /** Which warnings appear, each at most once and in the order stop, minimum, risk. */
  lemma WarningsContent(i: RiskCalcInput)
    requires ValidRiskCalcInput(i)
    ensures var r := Calculate(i);
      && |r.warnings| <= 3
      && ((exists w <- r.warnings :: w.VolumeFlooredToMinimum?) <==>
            r.volume <= MinValidVolume(i) && r.volumeRaw < MinValidVolume(i))
      && ((exists w <- r.warnings :: w.ActualRiskExceedsTarget?) <==>
            r.actualRiskPercent > i.riskPercent * 1.1)
      && (forall j, k :: 0 <= j < k < |r.warnings| ==> WarningRank(r.warnings[j]) < WarningRank(r.warnings[k]))
  {
    var r := Calculate(i);
    var a := if !(i.stopPips <= i.maxStopPips) then [StopExceedsMax(i.stopPips, i.maxStopPips)] else [];
    var b := if FinalVolume(i) <= MinValidVolume(i) && Quantize4(VolumeRaw(i)) < MinValidVolume(i)
             then [VolumeFlooredToMinimum(MinValidVolume(i))] else [];
    var c := if ActualRiskPercent(i) > i.riskPercent * 1.1
             then [ActualRiskExceedsTarget(ActualRiskPercent(i), i.riskPercent)] else [];
    assert r.warnings == a + b + c;
    forall w | w in r.warnings
      ensures (w.VolumeFlooredToMinimum? ==> w in b) && (w.ActualRiskExceedsTarget? ==> w in c)
    {
      assert w in a || w in b || w in c;
    }
    assert b != [] ==> b[0] in r.warnings;
    assert c != [] ==> c[0] in r.warnings;
  }

  /**
   * When the minimum lifts the volume above the raw volume, the actual risk
   * exceeds the target.
   */
  lemma MinimumLiftsRisk(i: RiskCalcInput)
    requires ValidRiskCalcInput(i)
    requires VolumeRaw(i) < MinValidVolume(i)
    ensures Calculate(i).volume == MinValidVolume(i)
    ensures Calculate(i).actualRiskAmount > Calculate(i).targetRiskAmount
  {
    ActualAmountAboveTarget(i);
  }

  /**
   * Otherwise flooring keeps the actual risk at most the target and less
   * than one step's worth of risk below it.
   */
  lemma FlooredRiskWithinOneStep(i: RiskCalcInput)
    requires ValidRiskCalcInput(i)
    requires VolumeRaw(i) >= MinValidVolume(i)
    ensures Calculate(i).volume == FloorSteps(VolumeRaw(i), i.volumeStep)
    ensures Calculate(i).actualRiskAmount <= Calculate(i).targetRiskAmount
    ensures Calculate(i).targetRiskAmount
      < Calculate(i).actualRiskAmount + i.volumeStep * (i.stopPips * i.pipValuePerLot)
  {
    ActualAmountWithinStep(i);
  }

  /** A risk-percent warning can only come from the broker minimum lifting the volume. */
  lemma ExceedsWarningOnlyWhenMinimumForced(i: RiskCalcInput)
    requires ValidRiskCalcInput(i)
    requires VolumeRaw(i) >= MinValidVolume(i)
    ensures Calculate(i).actualRiskPercent <= i.riskPercent
    ensures forall w <- Calculate(i).warnings :: !w.ActualRiskExceedsTarget?
  {
    ActualPercentVsTarget(i);
    WarningsContent(i);
  }

  /**
   * When the minimum lies on the 0.0001 grid, comparing the 4-decimal
   * truncated raw volume is the same as comparing the raw volume itself, so
   * the floored-to-minimum warning appears exactly when the minimum lifted the
   * volume.
   */
  lemma FlooredWarningIffMinimumForced(i: RiskCalcInput)
    requires ValidRiskCalcInput(i)
    requires IsMultiple(MinValidVolume(i), 0.0001)
    ensures (exists w <- Calculate(i).warnings :: w.VolumeFlooredToMinimum?) <==> VolumeRaw(i) < MinValidVolume(i)
  {
    var q := Calculate(i).volumeRaw;
    var mv := MinValidVolume(i);
    WarningsContent(i);
    ReportedRawVolumeTruncated(i);
    FinalVolumeShape(i);
    if q < mv {
      MultiplesApart(q, mv, 0.0001);
    }
  }

  /** The break-even price is off by the raw buffer (no pip scaling), on the profit side. */
  lemma BreakEvenPrice(i: RiskCalcInput)
    requires ValidRiskCalcInput(i)
    ensures !i.moveToBeEnabled ==> Calculate(i).beSlPrice == None
    ensures i.moveToBeEnabled && i.entryPrice > 0.0 ==>
      && Calculate(i).beSlPrice.Some?
      && var be := Calculate(i).beSlPrice.value;
      && (i.direction == Buy ==> be - i.entryPrice == i.beBufferPips)
      && (i.direction == Sell ==> i.entryPrice - be == i.beBufferPips)
  {}

  /**
   * The remaining volume is the open share of the volume rounded to cents;
   * `RemainingOfNonNegative` and `RemainingOfAtMost` bound it.
   */
  lemma RemainingVolumeIsRoundedShare(i: RiskCalcInput)
    requires ValidRiskCalcInput(i)
    ensures Calculate(i).remainingVolume == RemainingOf(Calculate(i).volume, i.partialPercent)
  {}

  lemma VolumePositive(i: RiskCalcInput)
    requires ValidRiskCalcInput(i)
    ensures Calculate(i).volume > 0.0
  {
    FinalVolumePositive(i);
  }
}
