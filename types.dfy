/**
 * Shared state of the unit-circle view (src/types/index.ts): the colour
 * theme, the six trigonometric values of the current angle, and the set of
 * display toggles.
 */
module Types {

  /** A value that may be missing, as a nullable reference or an optional field is. */
  datatype Option<T> = None | Some(value: T)

  /** The colour theme handed to every drawing routine. */
  datatype Theme = Theme(
    sin: string, cos: string, tan: string, cot: string, sec: string, csc: string,
    grid: string, axis: string, text: string, bg: string, comp: string,
    isDark: bool)

  /**
   * The six values for the current angle. They are inputs: the model never
   * computes a trigonometric function, and it assumes no identity between them.
   */
  datatype TrigValues = TrigValues(sin: real, cos: real, tan: real, cot: real, sec: real, csc: real)

  /** The boolean display toggles of the unit-circle view, one constructor per key. */
  datatype Toggle =
    | Sin | Cos | Tan | Cot | Sec | Csc | Comp
    | GeoTan | GeoCot | SimilarSec | SimilarCsc
    | Hypotenuse | Quadrants | ShowXY | AxesIntersections | CosOnCompSide
    | ProofSinTri | ProofTanTri | ProofGeneralUnit | ProofGeneralTarget
    | ProofPythagSquares | ProofPythagGeneral | ProofPythagRearrange

  /** A toggle record; a key that is absent reads as off, as an unset optional field does. */
  type Toggles = map<Toggle, bool>

  predicate On(t: Toggles, k: Toggle) { k in t && t[k] }

  /** A map sending every key of `keys` to false: the shape of every reset record. */
  function AllOff(keys: set<Toggle>): (m: Toggles)
    ensures m.Keys == keys
    ensures forall k :: k in m ==> !m[k]
  {
    map k | k in keys :: false
  }

  /**
   * The object spread `{...prev, ...over}`: keys of `over` take its value,
   * every other key keeps its value in `prev`.
   */
  function Spread(prev: Toggles, over: Toggles): (r: Toggles)
    ensures r.Keys == prev.Keys + over.Keys
    ensures forall k :: k in over ==> r[k] == over[k]
    ensures forall k :: k in prev && k !in over ==> r[k] == prev[k]
  {
    prev + over
  }

  /** The map setting exactly the keys of `keys` to true. */
  function AllOn(keys: set<Toggle>): (m: Toggles)
    ensures m.Keys == keys
    ensures forall k :: k in m ==> m[k]
  {
    map k | k in keys :: true
  }
}
