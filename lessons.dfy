/**
 * The lesson catalogue (src/data/lessons.tsx). Each lesson's `apply` hands the
 * toggle setter an updater `prev => ({...prev, ...over})`; the model keeps the
 * record `over` of each lesson and applies it with Types.Spread. Most lessons
 * spread RESET_DEFAULTS first and then switch a few keys on; the sine, cosine,
 * tangent and cotangent lessons list their keys explicitly instead.
 */
module Lessons {
  import opened Types

  datatype LessonId =
    | UnitCircle | Sine | Cosine | Tangent | Cotangent | Secant | Cosecant
    | TangentIdentity | GeneralForm | Pythagorean | PythagoreanIdentity
    | PythagIdentity2 | PythagIdentity3 | Identities

  /** The data of a lesson the model keeps: its id, title and diagram name; the updater is Apply. */
  datatype Lesson = Lesson(id: LessonId, title: string, diagram: string)

  /** The keys RESET_DEFAULTS lists; proof_general_unit and proof_general_target are not among them. */
  const RESET_KEYS: set<Toggle> := {
    Toggle.Sin, Toggle.Cos, Toggle.Tan, Toggle.Cot, Toggle.Sec, Toggle.Csc,
    Toggle.Hypotenuse, Toggle.Quadrants, Toggle.ShowXY, Toggle.GeoTan, Toggle.GeoCot,
    Toggle.SimilarSec, Toggle.SimilarCsc, Toggle.Comp, Toggle.AxesIntersections,
    Toggle.CosOnCompSide,
    Toggle.ProofSinTri, Toggle.ProofTanTri,
    Toggle.ProofPythagSquares, Toggle.ProofPythagGeneral, Toggle.ProofPythagRearrange}

  const RESET_DEFAULTS: Toggles := AllOff(RESET_KEYS)

  /** An object literal listing `on` keys as true and `off` keys as false. */
  function Literal(on: set<Toggle>, off: set<Toggle>): Toggles
  {
    AllOff(off) + AllOn(on)
  }

  /** The lessons whose updater spreads RESET_DEFAULTS before its own keys. */
  predicate SpreadsReset(id: LessonId)
  {
    !(id.Sine? || id.Cosine? || id.Tangent? || id.Cotangent?)
  }

  /** The keys a lesson writes explicitly, whatever value it gives them. */
  function Named(id: LessonId): set<Toggle>
  {
    match id
    case Sine | Cosine =>
      {Toggle.Sin, Toggle.Cos, Toggle.Tan, Toggle.Cot, Toggle.Sec, Toggle.Csc,
       Toggle.Quadrants, Toggle.Comp, Toggle.Hypotenuse, Toggle.GeoTan, Toggle.GeoCot,
       Toggle.SimilarSec, Toggle.SimilarCsc}
    case Tangent =>
      {Toggle.Sin, Toggle.Cos, Toggle.Tan, Toggle.Cot, Toggle.Sec, Toggle.Csc,
       Toggle.GeoTan, Toggle.Hypotenuse, Toggle.Quadrants, Toggle.SimilarSec, Toggle.SimilarCsc}
    case Cotangent =>
      {Toggle.Sin, Toggle.Cos, Toggle.Tan, Toggle.Cot, Toggle.Sec, Toggle.Csc,
       Toggle.GeoCot, Toggle.Hypotenuse, Toggle.Quadrants, Toggle.GeoTan,
       Toggle.SimilarSec, Toggle.SimilarCsc}
    case _ => OnKeys(id)
  }

  /** The keys a lesson switches on. */
  function OnKeys(id: LessonId): set<Toggle>
  {
    match id
    case UnitCircle | PythagoreanIdentity => {Toggle.Sin, Toggle.Cos, Toggle.Hypotenuse}
    case Sine => {Toggle.Sin, Toggle.Quadrants, Toggle.Hypotenuse}
    case Cosine => {Toggle.Cos, Toggle.Quadrants, Toggle.Hypotenuse}
    case Tangent => {Toggle.Tan, Toggle.GeoTan, Toggle.Hypotenuse}
    case Cotangent => {Toggle.Cot, Toggle.GeoCot, Toggle.Hypotenuse}
    case Secant => {Toggle.Sec, Toggle.SimilarSec, Toggle.Hypotenuse}
    case Cosecant => {Toggle.Csc, Toggle.SimilarCsc, Toggle.Hypotenuse}
    case TangentIdentity => {Toggle.ProofSinTri}
    case GeneralForm => {Toggle.ProofGeneralUnit}
    case Pythagorean => {Toggle.ProofPythagRearrange}
    case PythagIdentity2 => {Toggle.Tan, Toggle.Sec, Toggle.Hypotenuse, Toggle.GeoTan}
    case PythagIdentity3 => {Toggle.Cot, Toggle.Csc, Toggle.Hypotenuse, Toggle.GeoCot}
    case Identities =>
      {Toggle.Sin, Toggle.Cos, Toggle.Tan, Toggle.Cot, Toggle.Sec, Toggle.Csc, Toggle.Hypotenuse}
  }

  /** The record a lesson spreads over the previous toggles. */
  function Override(id: LessonId): Toggles
  {
    if SpreadsReset(id) then Spread(RESET_DEFAULTS, AllOn(OnKeys(id)))
    else Literal(OnKeys(id), Named(id) - OnKeys(id))
  }

  /** A lesson's `apply`: the toggles after its updater has run on `prev`. */
  function Apply(id: LessonId, prev: Toggles): (r: Toggles)
    ensures prev.Keys <= r.Keys <= prev.Keys + Touched(id)
    ensures forall k :: k in prev && k !in Touched(id) ==> r[k] == prev[k]
    ensures forall k :: k in OnKeys(id) ==> k in r && r[k]
  {
    Spread(prev, Override(id))
  }

  /** RESET_DEFAULTS sends exactly its listed keys to false. */
  lemma ResetDefaultsAllOff()
    ensures RESET_DEFAULTS.Keys == RESET_KEYS
    ensures forall k :: k in RESET_DEFAULTS ==> !RESET_DEFAULTS[k]
    ensures Toggle.ProofGeneralUnit !in RESET_DEFAULTS && Toggle.ProofGeneralTarget !in RESET_DEFAULTS
  {
  }

  /**
   * After a lesson that spreads RESET_DEFAULTS, a reset key is on exactly when
   * the lesson switches it on.
   */
  lemma ResetLessonKeys(id: LessonId, prev: Toggles, k: Toggle)
    requires SpreadsReset(id) && k in RESET_KEYS
    ensures k in Apply(id, prev)
    ensures Apply(id, prev)[k] <==> k in OnKeys(id)
  {
    ResetThenOn(prev, RESET_KEYS, OnKeys(id), k);
  }

  /** Spreading a reset record and then a set of keys switched on over prev. */
  lemma ResetThenOn(prev: Toggles, reset: set<Toggle>, on: set<Toggle>, k: Toggle)
    requires k in reset
    ensures k in Spread(prev, Spread(AllOff(reset), AllOn(on)))
    ensures Spread(prev, Spread(AllOff(reset), AllOn(on)))[k] <==> k in on
  {
    if k !in on {
      assert k in AllOff(reset);
    }
  }

  /** Every key a lesson switches on is on afterwards. */
  lemma LessonKeysOn(id: LessonId, prev: Toggles, k: Toggle)
    requires k in OnKeys(id)
    ensures On(Apply(id, prev), k)
  {
    assert k in Override(id);
  }

  /**
   * The explicit lessons set every key they name: on when it is one of their
   * on-keys, off otherwise.
   */
  lemma ExplicitLessonKeys(id: LessonId, prev: Toggles, k: Toggle)
    requires !SpreadsReset(id) && k in Named(id)
    ensures k in Apply(id, prev)
    ensures Apply(id, prev)[k] <==> k in OnKeys(id)
  {
    assert k in Override(id);
  }

  /** The keys an updater may change: the reset keys (if it spreads them) and the keys it names. */
  function Touched(id: LessonId): set<Toggle>
  {
    (if SpreadsReset(id) then RESET_KEYS else {}) + Named(id)
  }

  /** A key outside Touched(id) keeps its presence and its value in `prev`. */
  lemma UntouchedKeysKept(id: LessonId, prev: Toggles, k: Toggle)
    requires k !in Touched(id)
    ensures k in Apply(id, prev) <==> k in prev
    ensures k in prev ==> Apply(id, prev)[k] == prev[k]
  {
    assert k !in Override(id);
  }

  /**
   * The tangent lesson leaves the cotangent construction, the complementary
   * angle, the coordinates label, the axis intersections and every proof toggle
   * as they were.
   */
  lemma TangentLeavesOthers(prev: Toggles, k: Toggle)
    requires k in {Toggle.GeoCot, Toggle.Comp, Toggle.ShowXY, Toggle.AxesIntersections,
                   Toggle.CosOnCompSide, Toggle.ProofSinTri, Toggle.ProofTanTri,
                   Toggle.ProofGeneralUnit, Toggle.ProofGeneralTarget, Toggle.ProofPythagSquares,
                   Toggle.ProofPythagGeneral, Toggle.ProofPythagRearrange}
    ensures k in Apply(Tangent, prev) <==> k in prev
    ensures k in prev ==> Apply(Tangent, prev)[k] == prev[k]
  {
    UntouchedKeysKept(Tangent, prev, k);
  }

  /** The general-form lesson leaves proof_general_target as it was, since no reset lists it. */
  lemma GeneralFormKeepsTarget(prev: Toggles)
    ensures Toggle.ProofGeneralTarget in Apply(GeneralForm, prev) <==> Toggle.ProofGeneralTarget in prev
    ensures Toggle.ProofGeneralTarget in prev ==>
              Apply(GeneralForm, prev)[Toggle.ProofGeneralTarget] == prev[Toggle.ProofGeneralTarget]
    ensures On(Apply(GeneralForm, prev), Toggle.ProofGeneralUnit)
  {
    UntouchedKeysKept(GeneralForm, prev, Toggle.ProofGeneralTarget);
    LessonKeysOn(GeneralForm, prev, Toggle.ProofGeneralUnit);
  }

  /** Applying a lesson twice is applying it once. */
  lemma ApplyIdempotent(id: LessonId, prev: Toggles)
    ensures Apply(id, Apply(id, prev)) == Apply(id, prev)
  {
    var once := Apply(id, prev);
    var twice := Apply(id, once);
    assert twice.Keys == once.Keys;
    forall k | k in once
      ensures twice[k] == once[k]
    {
      if k in Override(id) {
        assert twice[k] == Override(id)[k] == once[k];
      }
    }
  }

  /** The unit-circle and sin² + cos² = 1 lessons show the same toggles, whatever came before. */
  lemma UnitCircleIsPythagoreanIdentity(prev: Toggles)
    ensures Apply(UnitCircle, prev) == Apply(PythagoreanIdentity, prev)
  {
    assert OnKeys(UnitCircle) == OnKeys(PythagoreanIdentity);
    assert Override(UnitCircle) == Override(PythagoreanIdentity);
  }

  /** LESSONS, in the order of the source. */
  const LESSONS: seq<Lesson> := [
    Lesson(UnitCircle, "Unit Circle", "none"),
    Lesson(Sine, "Sine", "none"),
    Lesson(Cosine, "Cosine", "none"),
    Lesson(Tangent, "Tangent", "none"),
    Lesson(Cotangent, "Cotangent", "none"),
    Lesson(Secant, "Secant", "none"),
    Lesson(Cosecant, "Cosecant", "none"),
    Lesson(TangentIdentity, "Tangent Identity", "tangent_identity"),
    Lesson(GeneralForm, "General Form", "general_form"),
    Lesson(Pythagorean, "Pythagorean Theorem", "pythagorean"),
    Lesson(PythagoreanIdentity, "Identity: sin² + cos² = 1", "pythagorean_identity"),
    Lesson(PythagIdentity2, "Identity: tan² + 1 = sec²", "pythag_identity_2"),
    Lesson(PythagIdentity3, "Identity: 1 + cot² = csc²", "pythag_identity_3"),
    Lesson(Identities, "\U{1F4D0} Trig Identities", "none")
  ]

  /** The position of each lesson id in LESSONS. */
  function IdIndex(id: LessonId): nat
  {
    match id
    case UnitCircle => 0 case Sine => 1 case Cosine => 2 case Tangent => 3
    case Cotangent => 4 case Secant => 5 case Cosecant => 6 case TangentIdentity => 7
    case GeneralForm => 8 case Pythagorean => 9 case PythagoreanIdentity => 10
    case PythagIdentity2 => 11 case PythagIdentity3 => 12 case Identities => 13
  }

  /** The catalogue has fourteen lessons, one per lesson id: each id sits at IdIndex(id) and nowhere else. */
  lemma LessonsOnePerId()
    ensures |LESSONS| == 14
    ensures forall id: LessonId :: IdIndex(id) < |LESSONS| && LESSONS[IdIndex(id)].id == id
    ensures forall i :: 0 <= i < |LESSONS| ==> IdIndex(LESSONS[i].id) == i
    ensures forall i, j :: 0 <= i < j < |LESSONS| ==> LESSONS[i].id != LESSONS[j].id
  {
    forall i | 0 <= i < |LESSONS|
      ensures IdIndex(LESSONS[i].id) == i
    {
    }
  }
}
