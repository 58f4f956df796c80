/**
 * The proof steppers (src/components/UnitCircle/steppers): a step index the
 * Back and Next buttons move within its range, and an effect that, each time
 * the step changes, spreads the stepper's reset record and the keys that step
 * shows over the diagram toggles.
 *
 * AlgebraicStepper is the shared view of the three identity steppers: it shows
 * the current step (falling back to the first), a progress dot per step and
 * the clamped navigation. The general-form and Pythagorean steppers carry the
 * same navigation with the range fixed at 0..2.
 */
module Steppers {
  import opened Types

  // ---------------------------------------------------------------------
  // AlgebraicStepper
  // ---------------------------------------------------------------------

  datatype Highlight = Start | Intermediate | Result

  /** One step of a derivation; only the parts that decide the display are kept. */
  datatype AlgebraicStep = AlgebraicStep(title: string, hasEquation: bool, highlight: Option<Highlight>)

  /** `steps[step] || steps[0]`: the step shown, the first one when `step` is out of range. */
  function CurrentStep(steps: seq<AlgebraicStep>, step: int): (s: AlgebraicStep)
    requires |steps| > 0
    ensures s in steps
    ensures 0 <= step < |steps| ==> s == steps[step]
    ensures !(0 <= step < |steps|) ==> s == steps[0]
  {
    if 0 <= step < |steps| then steps[step] else steps[0]
  }

  function MaxStep(steps: seq<AlgebraicStep>): int { |steps| - 1 }

  /** The Back button: `Math.max(0, step - 1)`. */
  function Back(step: int): int { if step - 1 > 0 then step - 1 else 0 }

  /** The Next button: `Math.min(maxStep, step + 1)`. */
  function Next(step: int, maxStep: int): int { if step + 1 < maxStep then step + 1 else maxStep }

  /** The buttons are disabled at the ends of the range. */
  predicate BackDisabled(step: int) { step == 0 }
  predicate NextDisabled(step: int, maxStep: int) { step == maxStep }

  /**
   * From any step in [0, maxStep], Back and Next stay in [0, maxStep], move by
   * exactly one, and leave the step where it is exactly when their button is
   * disabled.
   */
  lemma NavigationInRange(step: int, maxStep: int)
    requires 0 <= step <= maxStep
    ensures 0 <= Back(step) <= maxStep && 0 <= Next(step, maxStep) <= maxStep
    ensures Back(step) == step <==> BackDisabled(step)
    ensures Next(step, maxStep) == step <==> NextDisabled(step, maxStep)
    ensures !BackDisabled(step) ==> Back(step) == step - 1
    ensures !NextDisabled(step, maxStep) ==> Next(step, maxStep) == step + 1
  {
  }

  /** The text class of the equation: emerald for a result, amber for an intermediate step, plain otherwise. */
  function HighlightClass(h: Option<Highlight>): (cls: string)
    ensures h == Some(Result) ==> cls == "text-emerald-500"
    ensures h == Some(Intermediate) ==> cls == "text-amber-500"
    ensures h != Some(Result) && h != Some(Intermediate) ==> cls == "text-gray-800 dark:text-gray-200"
  {
    match h
    case Some(Result) => "text-emerald-500"
    case Some(Intermediate) => "text-amber-500"
    case _ => "text-gray-800 dark:text-gray-200"
  }

  /** The progress dots: dot i is lit when i is the current step. */
  function ProgressDots(n: nat, step: int): seq<bool>
  {
    seq(n, i => i == step)
  }

  /** For a step in range exactly one dot is lit, the one at the step. */
  lemma OneDotLit(n: nat, step: int)
    requires 0 <= step < n
    ensures var dots := ProgressDots(n, step);
      |dots| == n && (set i | 0 <= i < n && dots[i]) == {step}
  {
    var dots := ProgressDots(n, step);
    assert dots[step];
    assert forall i :: 0 <= i < n && dots[i] ==> i == step;
  }

  // ---------------------------------------------------------------------
  // The steppers that drive the toggles
  // ---------------------------------------------------------------------

  datatype Kind = GeneralProof | PythagoreanProof | Identity1 | Identity2 | Identity3

  /** The resetToggles of GeneralProofStepper and PythagoreanStepper. */
  const PROOF_RESET: set<Toggle> := {
    Toggle.Sin, Toggle.Cos, Toggle.Tan, Toggle.Cot, Toggle.Sec, Toggle.Csc,
    Toggle.SimilarSec, Toggle.Hypotenuse, Toggle.Quadrants, Toggle.GeoTan, Toggle.GeoCot,
    Toggle.SimilarCsc,
    Toggle.ProofSinTri, Toggle.ProofTanTri, Toggle.ProofGeneralUnit, Toggle.ProofGeneralTarget,
    Toggle.ProofPythagSquares}

  /** The resetToggles of the three identity steppers: the same keys and proof_pythag_rearrange. */
  const IDENTITY_RESET: set<Toggle> := PROOF_RESET + {Toggle.ProofPythagRearrange}

  function ResetKeys(kind: Kind): set<Toggle>
  {
    if kind.GeneralProof? || kind.PythagoreanProof? then PROOF_RESET else IDENTITY_RESET
  }

  /** The identity derivations (STEPS of PythagIdentity1Stepper, 2 and 3). */
  const IDENTITY1_STEPS: seq<AlgebraicStep> := [
    AlgebraicStep("Step 1: The Unit Circle Triangle", false, Some(Start)),
    AlgebraicStep("Step 2: Apply Pythagorean Theorem", true, Some(Intermediate)),
    AlgebraicStep("Step 3: Substitute", true, Some(Intermediate)),
    AlgebraicStep("Step 4: Simplify", true, Some(Result))]

  const IDENTITY2_STEPS: seq<AlgebraicStep> := [
    AlgebraicStep("Step 1: Start with the Fundamental Identity", true, Some(Start)),
    AlgebraicStep("Step 2: Divide Everything by cos²θ", true, Some(Intermediate)),
    AlgebraicStep("Step 3: Simplify Using Definitions", true, Some(Intermediate)),
    AlgebraicStep("Result: Second Pythagorean Identity", true, Some(Result))]

  const IDENTITY3_STEPS: seq<AlgebraicStep> := [
    AlgebraicStep("Step 1: Start with the Fundamental Identity", true, Some(Start)),
    AlgebraicStep("Step 2: Divide Everything by sin²θ", true, Some(Intermediate)),
    AlgebraicStep("Step 3: Simplify Using Definitions", true, Some(Intermediate)),
    AlgebraicStep("Result: Third Pythagorean Identity", true, Some(Result))]

  /** The highlights of a derivation, in order. */
  function Highlights(steps: seq<AlgebraicStep>): seq<Option<Highlight>>
  {
    seq(|steps|, i requires 0 <= i < |steps| => steps[i].highlight)
  }

  /** Each identity derivation has four steps: a start, two intermediate steps and a result. */
  lemma IdentityDerivations()
    ensures Highlights(IDENTITY1_STEPS) == [Some(Start), Some(Intermediate), Some(Intermediate), Some(Result)]
    ensures Highlights(IDENTITY2_STEPS) == Highlights(IDENTITY1_STEPS)
    ensures Highlights(IDENTITY3_STEPS) == Highlights(IDENTITY1_STEPS)
  {
  }

  /** The last step each stepper can reach: 2 for the fixed steppers, maxStep of STEPS for the others. */
  function LastStep(kind: Kind): int
  {
    match kind
    case GeneralProof | PythagoreanProof => 2
    case Identity1 => MaxStep(IDENTITY1_STEPS)
    case Identity2 => MaxStep(IDENTITY2_STEPS)
    case Identity3 => MaxStep(IDENTITY3_STEPS)
  }

  /** The reset record with the keys `on` switched on. */
  function ResetWith(kind: Kind, on: set<Toggle>): Toggles
  {
    Spread(AllOff(ResetKeys(kind)), AllOn(on))
  }

  /** The record each stepper's effect spreads for a step, or None when its branches set nothing. */
  function StepRecord(kind: Kind, step: int): Option<Toggles>
  {
    match kind
    case GeneralProof =>
      if step == 0 then Some(ResetWith(kind, {Toggle.ProofGeneralUnit}))
      else if step == 1 || step == 2 then
        Some(ResetWith(kind, {Toggle.ProofGeneralUnit, Toggle.ProofGeneralTarget}))
      else None
    case PythagoreanProof =>
      if step == 0 then Some(ResetWith(kind, {Toggle.Sin, Toggle.Cos, Toggle.Hypotenuse}))
      else if step == 1 || step == 2 then
        Some(ResetWith(kind, {Toggle.Sin, Toggle.Cos, Toggle.Hypotenuse, Toggle.ProofPythagSquares}))
      else None
    case Identity1 =>
      if step >= 0 then
        Some(ResetWith(kind, {Toggle.Sin, Toggle.Cos, Toggle.Hypotenuse})[Toggle.ProofSinTri := step >= 1])
      else None
    case Identity2 =>
      if step <= 1 then Some(ResetWith(kind, {Toggle.Sin, Toggle.Cos, Toggle.Hypotenuse}))
      else Some(ResetWith(kind, {Toggle.Tan, Toggle.Sec, Toggle.Hypotenuse, Toggle.GeoTan}))
    case Identity3 =>
      if step <= 1 then Some(ResetWith(kind, {Toggle.Sin, Toggle.Cos, Toggle.Hypotenuse}))
      else Some(ResetWith(kind, {Toggle.Cot, Toggle.Csc, Toggle.Hypotenuse, Toggle.GeoCot}))
  }

  /** The effect: nothing without a setter, otherwise `{...prev, ...record}`. */
  function Effect(kind: Kind, step: int, hasSetter: bool, prev: Toggles): Toggles
  {
    if !hasSetter then prev
    else match StepRecord(kind, step)
      case None => prev
      case Some(record) => Spread(prev, record)
  }

  /** Whatever the step, a record writes exactly the stepper's reset keys. */
  lemma RecordKeys(kind: Kind, step: int)
    requires StepRecord(kind, step).Some?
    ensures StepRecord(kind, step).value.Keys == ResetKeys(kind)
  {
  }

  /** Without a setter the effect changes nothing. */
  lemma NoSetterNoUpdate(kind: Kind, step: int, prev: Toggles)
    ensures Effect(kind, step, false, prev) == prev
  {
  }

  /** Keys outside the stepper's reset record keep their presence and value. */
  lemma OutsideResetUnchanged(kind: Kind, step: int, hasSetter: bool, prev: Toggles, key: Toggle)
    requires key !in ResetKeys(kind)
    ensures key in Effect(kind, step, hasSetter, prev) <==> key in prev
    ensures key in prev ==> Effect(kind, step, hasSetter, prev)[key] == prev[key]
  {
    if hasSetter && StepRecord(kind, step).Some? {
      RecordKeys(kind, step);
    }
  }

  /** Every reachable step has a record: the effect always writes the toggles when it has a setter. */
  lemma ReachableStepsHaveRecord(kind: Kind, step: int)
    requires 0 <= step <= LastStep(kind)
    ensures StepRecord(kind, step).Some?
  {
  }

  /**
   * The general-form stepper: step 0 shows only the unit triangle, steps 1
   * and 2 add the target triangle; every other reset key is off.
   */
  lemma GeneralProofToggles(step: int, prev: Toggles)
    requires 0 <= step <= 2
    ensures var t := Effect(GeneralProof, step, true, prev);
      On(t, Toggle.ProofGeneralUnit) && (On(t, Toggle.ProofGeneralTarget) <==> step >= 1)
      && forall key :: key in PROOF_RESET - {Toggle.ProofGeneralUnit, Toggle.ProofGeneralTarget} ==>
           key in t && !t[key]
  {
  }

  /** Steps 1 and 2 of the general-form and Pythagorean steppers produce the same toggles. */
  lemma LaterStepsAgree(kind: Kind, prev: Toggles)
    requires kind.GeneralProof? || kind.PythagoreanProof?
    ensures Effect(kind, 1, true, prev) == Effect(kind, 2, true, prev)
  {
  }

  /**
   * The Pythagorean stepper: sin, cos and the hypotenuse at every step, the
   * squares from step 1 on, and no other reset key; in particular step 0
   * shows no proof overlay.
   */
  lemma PythagoreanToggles(step: int, prev: Toggles)
    requires 0 <= step <= 2
    ensures var t := Effect(PythagoreanProof, step, true, prev);
      On(t, Toggle.Sin) && On(t, Toggle.Cos) && On(t, Toggle.Hypotenuse)
      && (On(t, Toggle.ProofPythagSquares) <==> step >= 1)
      && forall key :: key in PROOF_RESET - {Toggle.Sin, Toggle.Cos, Toggle.Hypotenuse, Toggle.ProofPythagSquares} ==>
           key in t && !t[key]
  {
  }

  /** The first identity: sin, cos and the hypotenuse always, the sine triangle from step 1 on. */
  lemma Identity1Toggles(step: int, prev: Toggles)
    requires 0 <= step <= LastStep(Identity1)
    ensures var t := Effect(Identity1, step, true, prev);
      On(t, Toggle.Sin) && On(t, Toggle.Cos) && On(t, Toggle.Hypotenuse)
      && (On(t, Toggle.ProofSinTri) <==> step >= 1)
      && forall key :: key in IDENTITY_RESET - {Toggle.Sin, Toggle.Cos, Toggle.Hypotenuse, Toggle.ProofSinTri} ==>
           key in t && !t[key]
  {
  }

  /**
   * The second identity: sin, cos and the hypotenuse for steps 0 and 1; from
   * step 2 on tan, sec, the hypotenuse and the tangent construction, with sin
   * and cos off.
   */
  lemma Identity2Toggles(step: int, prev: Toggles)
    requires 0 <= step <= LastStep(Identity2)
    ensures var t := Effect(Identity2, step, true, prev);
      On(t, Toggle.Hypotenuse)
      && (step <= 1 ==> On(t, Toggle.Sin) && On(t, Toggle.Cos) && !On(t, Toggle.Tan) && !On(t, Toggle.Sec))
      && (step >= 2 ==> On(t, Toggle.Tan) && On(t, Toggle.Sec) && On(t, Toggle.GeoTan)
                        && !On(t, Toggle.Sin) && !On(t, Toggle.Cos))
  {
  }

  /** The third identity: as the second, with cot, csc and the cotangent construction. */
  lemma Identity3Toggles(step: int, prev: Toggles)
    requires 0 <= step <= LastStep(Identity3)
    ensures var t := Effect(Identity3, step, true, prev);
      On(t, Toggle.Hypotenuse)
      && (step <= 1 ==> On(t, Toggle.Sin) && On(t, Toggle.Cos) && !On(t, Toggle.Cot) && !On(t, Toggle.Csc))
      && (step >= 2 ==> On(t, Toggle.Cot) && On(t, Toggle.Csc) && On(t, Toggle.GeoCot)
                        && !On(t, Toggle.Sin) && !On(t, Toggle.Cos))
  {
  }

  /** Running a stepper's effect twice on its own output changes nothing more. */
  lemma EffectIdempotent(kind: Kind, step: int, hasSetter: bool, prev: Toggles)
    ensures Effect(kind, step, hasSetter, Effect(kind, step, hasSetter, prev))
         == Effect(kind, step, hasSetter, prev)
  {
    var once := Effect(kind, step, hasSetter, prev);
    var twice := Effect(kind, step, hasSetter, once);
    if hasSetter && StepRecord(kind, step).Some? {
      var record := StepRecord(kind, step).value;
      assert twice.Keys == once.Keys;
      forall key | key in once
        ensures twice[key] == once[key]
      {
        if key in record {
          assert twice[key] == record[key] == once[key];
        }
      }
    }
  }

  /**
   * A mounted stepper: its step (React state) and the diagram toggles it
   * drives. Each change of step re-runs the effect; a click that leaves the
   * step unchanged re-renders nothing.
   */
  class ProofStepper {
    const kind: Kind
    const hasSetter: bool
    var step: int
    var toggles: Toggles

    predicate Valid()
      reads this
    {
      0 <= step <= LastStep(kind)
    }

    /** Mounting: the step starts at 0 and the effect runs once. */
    constructor (kind: Kind, hasSetter: bool, toggles: Toggles)
      ensures Valid()
      ensures this.kind == kind && this.hasSetter == hasSetter
      ensures step == 0 && this.toggles == Effect(kind, 0, hasSetter, toggles)
    {
      this.kind := kind;
      this.hasSetter := hasSetter;
      step := 0;
      this.toggles := Effect(kind, 0, hasSetter, toggles);
    }

    /** The effect's dependency changed: write the toggles for the new step. */
    method SetStep(s: int)
      modifies this`step, this`toggles
      ensures step == s
      ensures toggles == if s == old(step) then old(toggles) else Effect(kind, s, hasSetter, old(toggles))
    {
      if s != step {
        step := s;
        toggles := Effect(kind, s, hasSetter, toggles);
      }
    }

    method BackClicked()
      requires Valid()
      modifies this`step, this`toggles
      ensures Valid()
      ensures step == Back(old(step))
      ensures toggles == if BackDisabled(old(step)) then old(toggles)
                         else Effect(kind, step, hasSetter, old(toggles))
    {
      NavigationInRange(step, LastStep(kind));
      SetStep(Back(step));
    }

    method NextClicked()
      requires Valid()
      modifies this`step, this`toggles
      ensures Valid()
      ensures step == Next(old(step), LastStep(kind))
      ensures toggles == if NextDisabled(old(step), LastStep(kind)) then old(toggles)
                         else Effect(kind, step, hasSetter, old(toggles))
    {
      NavigationInRange(step, LastStep(kind));
      SetStep(Next(step, LastStep(kind)));
    }
  }
}
