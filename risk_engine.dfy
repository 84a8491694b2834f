/**
 * The position-size calculator (backend/app/services/risk_engine.py):
 * balance and risk percent give a target risk amount, the stop distance and
 * the pip value per lot turn it into a raw volume, which is floored to the
 * broker step and lifted to the step-aligned minimum.
 */
module RiskEngine {
  import opened Wrappers
  import opened Steps
  import opened Models

  /**
   * `Decimal(x).quantize(Decimal("0.0001"), rounding=ROUND_DOWN)`; the raw
   * volume is never negative, so ROUND_DOWN is the floor.
   */
  function Quantize4(x: real): (q: real)
    ensures IsMultiple(q, 0.0001)
    ensures q <= x < q + 0.0001
  {
    var k := Floor(x * 10000.0);
    assert k as real / 10000.0 == Scaled(k, 0.0001);
    ScaledIsMultiple(k, 0.0001);
    k as real / 10000.0
  }

  function TargetRiskAmount(i: RiskCalcInput): real {
    i.accountBalance * i.riskPercent / 100.0
  }

  /** Volume before broker constraints; 0 when the pip value or the stop is not positive. */
  function VolumeRaw(i: RiskCalcInput): real {
    if i.pipValuePerLot <= 0.0 || i.stopPips <= 0.0 then 0.0
    else TargetRiskAmount(i) / (i.stopPips * i.pipValuePerLot)
  }

  /** The step the volume is aligned to: the broker's, or 0.01 when it is not positive. */
  function Step(i: RiskCalcInput): (s: real)
    ensures s > 0.0
  {
    if i.volumeStep <= 0.0 then 0.01 else i.volumeStep
  }

  /**
   * The raw volume ROUND_DOWN to the step, which for the non-negative raw
   * volume is the floor (0 when the broker step is not positive).
   */
  function SteppedVolume(i: RiskCalcInput): (v: real)
    ensures IsMultiple(v, Step(i))
  {
    if i.volumeStep <= 0.0 then
      assert 0.0 == Scaled(0, Step(i));
      0.0
    else FloorSteps(VolumeRaw(i), Step(i))
  }

  /** The positive minimum volume ROUND_UP, that is the ceiling, to a whole number of steps. */
  function MinValidVolume(i: RiskCalcInput): (v: real)
    ensures IsMultiple(v, Step(i))
  {
    CeilSteps(i.minVolume, Step(i))
  }

  /**
   * The larger of the stepped raw volume and the minimum. The source floors
   * this value to the step once more; `RefloorKeepsVolume` shows that this
   * second floor returns it unchanged.
   */
  function FinalVolume(i: RiskCalcInput): (v: real)
    ensures IsMultiple(v, Step(i))
    ensures v >= MinValidVolume(i) && v >= SteppedVolume(i)
  {
    var stepped := SteppedVolume(i);
    var minValid := MinValidVolume(i);
    if stepped > minValid then stepped else minValid
  }

  function ActualRiskAmount(i: RiskCalcInput): real {
    FinalVolume(i) * i.stopPips * i.pipValuePerLot
  }

  function ActualRiskPercent(i: RiskCalcInput): real {
    if i.accountBalance > 0.0 then ActualRiskAmount(i) / i.accountBalance * 100.0 else 0.0
  }

  /** The warnings, in the order `calculate` appends them. */
  function Warnings(i: RiskCalcInput): seq<RiskWarning> {
    var minValid := MinValidVolume(i);
    (if !(i.stopPips <= i.maxStopPips) then [StopExceedsMax(i.stopPips, i.maxStopPips)] else [])
    + (if FinalVolume(i) <= minValid && Quantize4(VolumeRaw(i)) < minValid
       then [VolumeFlooredToMinimum(minValid)] else [])
    + (if ActualRiskPercent(i) > i.riskPercent * 1.1
       then [ActualRiskExceedsTarget(ActualRiskPercent(i), i.riskPercent)] else [])
  }

  /** What stays open of `volume` after closing `partialPercent` percent, rounded to 2 decimals. */
  function RemainingOf(volume: real, partialPercent: real): (r: real)
    ensures IsMultiple(r, 0.01)
    ensures r - 0.005 <= volume * (1.0 - partialPercent / 100.0) <= r + 0.005
  {
    Round2(volume * (1.0 - partialPercent / 100.0))
  }

  function RemainingVolume(i: RiskCalcInput): real {
    RemainingOf(FinalVolume(i), i.partialPercent)
  }

  /** Break-even stop: entry plus (buy) or minus (sell) the buffer, taken as a price distance. */
  function BeSlPrice(i: RiskCalcInput): Option<real> {
    if i.moveToBeEnabled && i.entryPrice > 0.0 then
      Some(if i.direction == Buy then i.entryPrice + i.beBufferPips else i.entryPrice - i.beBufferPips)
    else None
  }

  /** RiskEngine.calculate, on an input that passed the RiskCalcInput constraints. */
  function Calculate(i: RiskCalcInput): (r: RiskCalcOutput)
    requires ValidRiskCalcInput(i)
    ensures r.allowed <==> i.stopPips <= i.maxStopPips
    ensures IsMultiple(r.volume, Step(i))
    ensures r.targetRiskPercent == i.riskPercent && r.tp1Pips == i.tp1Pips
    ensures r.partialPercent == i.partialPercent
  {
    RiskCalcOutput(
      allowed := i.stopPips <= i.maxStopPips,
      volumeRaw := Quantize4(VolumeRaw(i)),
      volume := FinalVolume(i),
      targetRiskAmount := TargetRiskAmount(i),
      actualRiskAmount := ActualRiskAmount(i),
      targetRiskPercent := i.riskPercent,
      actualRiskPercent := ActualRiskPercent(i),
      tp1Pips := i.tp1Pips,
      partialPercent := i.partialPercent,
      remainingVolume := RemainingVolume(i),
      beSlPrice := BeSlPrice(i),
      warnings := Warnings(i))
  }

  // ---------------------------------------------------------------------------
  // Arithmetic on plain reals, kept apart from the record so that each proof
  // sees only the quantities it needs
  // ---------------------------------------------------------------------------

  /** A positive amount spread over a positive risk per lot. */
  lemma RawFromTarget(t: real, stop: real, pip: real)
    requires t > 0.0 && stop > 0.0 && pip > 0.0
    ensures t / (stop * pip) > 0.0
    ensures t / (stop * pip) * (stop * pip) == t
  {
    DivMul(t, stop * pip);
  }

  /** A volume lifted above the raw volume carries more than the target risk. */
  lemma LiftedAbove(raw: real, v: real, stop: real, pip: real, t: real)
    requires raw < v && stop > 0.0 && pip > 0.0 && raw * (stop * pip) == t
    ensures v * stop * pip > t
  {
    ScaleLt(raw, v, stop * pip);
  }

  /** A volume floored by less than one step carries at most the target, and less than one step's risk below it. */
  lemma FlooredWithin(raw: real, f: real, s: real, stop: real, pip: real, t: real)
    requires f <= raw < f + s && s > 0.0 && stop > 0.0 && pip > 0.0 && raw * (stop * pip) == t
    ensures f * stop * pip <= t < f * stop * pip + s * (stop * pip)
  {
    ScaleLe(f, raw, stop * pip);
    ScaleLt(raw, f + s, stop * pip);
  }

  /** An amount at most the target share of a positive balance is at most that share in percent. */
  lemma PercentMonotone(a: real, b: real, r: real)
    requires b > 0.0 && a <= b * r / 100.0
    ensures a / b * 100.0 <= r
  {
    ScaleLe(a, b * r / 100.0, 100.0 / b);
    assert (b * r / 100.0) * (100.0 / b) == r;
  }

  /** What is left of a positive `v` after closing `p` percent is not negative. */
  lemma ShareNonNegative(v: real, p: real)
    requires v > 0.0 && 0.0 <= p <= 100.0
    ensures 0.0 <= v * (1.0 - p / 100.0)
  {
    ScaleLe(0.0, 1.0 - p / 100.0, v);
  }

  /** ... and not above `v`. */
  lemma ShareAtMost(v: real, p: real)
    requires v > 0.0 && 0.0 <= p <= 100.0
    ensures v * (1.0 - p / 100.0) <= v
  {
    ScaleLe(1.0 - p / 100.0, 1.0, v);
  }

  lemma RemainingOfNonNegative(v: real, p: real)
    requires v > 0.0 && 0.0 <= p <= 100.0
    ensures 0.0 <= RemainingOf(v, p)
  {
    ShareNonNegative(v, p);
    Round2NonNegative(v * (1.0 - p / 100.0));
  }

  /** Rounding to cents keeps a share of a cent-aligned `v` at most `v`. */
  lemma RemainingOfAtMostCents(v: real, p: real, n: int)
    requires v > 0.0 && 0.0 <= p <= 100.0 && v == n as real * 0.01
    ensures RemainingOf(v, p) <= v
  {
    var x := v * (1.0 - p / 100.0);
    assert RemainingOf(v, p) == Round2(x);
    assert Round2(x) <= v by {
      ShareAtMost(v, p);
      ScaledIsMultiple(n, 0.01);
      Round2AtMost(x, v);
    }
  }

  lemma RemainingOfAtMost(v: real, p: real)
    requires v > 0.0 && 0.0 <= p <= 100.0 && IsMultiple(v, 0.01)
    ensures RemainingOf(v, p) <= v
  {
    var n :| v == Scaled(n, 0.01);
    RemainingOfAtMostCents(v, p, n);
  }

  // ---------------------------------------------------------------------------
  // The intermediate quantities under valid inputs
  // ---------------------------------------------------------------------------

  lemma VolumeRawPositive(i: RiskCalcInput)
    requires ValidRiskCalcInput(i)
    ensures VolumeRaw(i) > 0.0
    ensures VolumeRaw(i) * (i.stopPips * i.pipValuePerLot) == TargetRiskAmount(i)
  {
    assert TargetRiskAmount(i) > 0.0;
    RawFromTarget(TargetRiskAmount(i), i.stopPips, i.pipValuePerLot);
  }

  lemma FinalVolumeShape(i: RiskCalcInput)
    requires ValidRiskCalcInput(i)
    ensures SteppedVolume(i) == FloorSteps(VolumeRaw(i), i.volumeStep)
    ensures MinValidVolume(i) == CeilSteps(i.minVolume, i.volumeStep)
    ensures i.minVolume <= MinValidVolume(i) < i.minVolume + i.volumeStep
    ensures FinalVolume(i) > 0.0
  {
    VolumeRawPositive(i);
  }

  /** The source's second floor of the chosen volume to the step changes nothing. */
  lemma RefloorKeepsVolume(i: RiskCalcInput)
    ensures FloorSteps(FinalVolume(i), Step(i)) == FinalVolume(i)
  {
    FloorStepsOfMultiple(FinalVolume(i), Step(i));
  }

  lemma ActualAmountAboveTarget(i: RiskCalcInput)
    requires ValidRiskCalcInput(i)
    requires VolumeRaw(i) < MinValidVolume(i)
    ensures FinalVolume(i) == MinValidVolume(i)
    ensures ActualRiskAmount(i) > TargetRiskAmount(i)
  {
    FinalVolumeShape(i);
    VolumeRawPositive(i);
    LiftedAbove(VolumeRaw(i), FinalVolume(i), i.stopPips, i.pipValuePerLot, TargetRiskAmount(i));
  }

  /** When the raw volume reaches the minimum, the step-floor is what is chosen. */
  lemma FloorChosen(i: RiskCalcInput)
    requires ValidRiskCalcInput(i)
    requires VolumeRaw(i) >= MinValidVolume(i)
    ensures FinalVolume(i) == FloorSteps(VolumeRaw(i), i.volumeStep)
  {
    FinalVolumeShape(i);
    var m :| MinValidVolume(i) == Scaled(m, i.volumeStep);
    FloorStepsIsGreatest(VolumeRaw(i), i.volumeStep, m);
  }

  lemma ActualAmountWithinStep(i: RiskCalcInput)
    requires ValidRiskCalcInput(i)
    requires VolumeRaw(i) >= MinValidVolume(i)
    ensures FinalVolume(i) == FloorSteps(VolumeRaw(i), i.volumeStep)
    ensures ActualRiskAmount(i) <= TargetRiskAmount(i)
    ensures TargetRiskAmount(i) < ActualRiskAmount(i) + i.volumeStep * (i.stopPips * i.pipValuePerLot)
  {
    FloorChosen(i);
    var raw, f, s := VolumeRaw(i), FinalVolume(i), i.volumeStep;
    assert f <= raw < f + s;
    VolumeRawPositive(i);
    FlooredWithin(raw, f, s, i.stopPips, i.pipValuePerLot, TargetRiskAmount(i));
  }

  lemma ActualPercentVsTarget(i: RiskCalcInput)
    requires ValidRiskCalcInput(i)
    requires VolumeRaw(i) >= MinValidVolume(i)
    ensures ActualRiskPercent(i) <= i.riskPercent
  {
    ActualAmountWithinStep(i);
    PercentMonotone(ActualRiskAmount(i), i.accountBalance, i.riskPercent);
  }

  lemma FinalVolumePositive(i: RiskCalcInput)
    requires ValidRiskCalcInput(i)
    ensures FinalVolume(i) > 0.0
  {
    assert MinValidVolume(i) >= i.minVolume;
  }
}
