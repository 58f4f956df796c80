# trigflow, modelled in Dafny

trigflow is a browser app for teaching trigonometry on the unit circle. This project models its core:

- the coordinate and angle arithmetic behind every drawing, with the coordinate mapper that clamps at ±1000 and flips Y (`TrigMath`);
- the overlay colour helper `withAlpha` and the alpha ladder (`Overlays`);
- the canvas drawing vocabulary (`Canvas`, `CanvasHelpers`);
- the proof overlays and the similar-triangle constructions for secant and cosecant (`ProofOverlays`, `SimilarSecant`, `SimilarCosecant`);
- the unit-circle renderer, as the ordered list of drawing commands one frame issues (`Renderer`);
- the step-by-step proof walkers and the lessons, as updates of the toggle record (`Steppers`, `Lessons`, with the toggle record in `Types`);
- the page state: the angle, its snapping, and the trace of visited angles (`UnitCircleView`);
- the function graphs: axis mapping, the plot path that breaks at poles, the current-value dot, and the order of the graphs (`TrigGraph`);
- the animated rearrangement proof of a² + b² = c² (`PythagoreanProof`).

The six trig values of the current angle are real inputs to the model; it never computes a sine. A browser 2D context becomes the class `Canvas.Recorder`. Its style fields are assigned as the program assigns them, and each stroke, fill or text call appends one command to the field `drawn`, carrying the path and style in force at that moment. Each drawing routine of the program becomes a method that modifies a recorder. Its contract says that it appends exactly the commands of a specification function. The geometry is then proved about those functions: which guards hold, where markers point, which corners form squares, and which points lie on which axes. Where the program keeps state in objects, those objects are classes: the page's angle and trace, a stepper's current step, and the rearrangement canvas's triangle and label refs.

## Model

| member | source | states |
|---|---|---|
| TrigMath.ToDegToRad | src/utils/math.ts:4-5 | toDeg(toRad(d)) = d and toRad(toDeg(r)) = r for every real, with π the constant 3.141592653589793 (the proof uses only π > 0) |
| TrigMath.JsRem | src/utils/math.ts:8 | JavaScript's `%` by a positive modulus: the remainder has the dividend's sign and a magnitude below the modulus |
| TrigMath.NormalizeAngle | src/utils/math.ts:7-11 | the result lies in [0, 360) for every real input |
| TrigMath.NormalizeAngleTurns | src/utils/math.ts:8-10 | the result differs from the input by a whole number of turns of 360 |
| TrigMath.NormalizeAngleIdentity | src/utils/math.ts:8-10 | an angle already in [0, 360) is returned unchanged |
| TrigMath.NormalizeAngleIdempotent | src/utils/math.ts:7-11 | normalising twice equals normalising once |
| TrigMath.Clamp | src/utils/math.ts:13-14 | the result lies in [min, max] when min ≤ max, equals the value when it is already in range, and never exceeds max |
| TrigMath.MapRange | src/utils/math.ts:21-29 | inMin maps to outMin and inMax maps to outMax, when inMin ≠ inMax |
| TrigMath.MapRangeInverse | src/utils/math.ts:21-29 | mapping forward and then back with the ranges swapped returns the value |
| TrigMath.MapRangeMonotone | src/utils/math.ts:21-29 | with both ranges running upwards, a larger value never maps lower |
| TrigMath.UnitBound | src/utils/math.ts:38-46 | a point of the unit circle has both coordinates in [-1, 1], so it never reaches the mapper's clamp |
| TrigMath.MapBounded | src/utils/math.ts:40-46 | whatever the input, the pixel lies within 1000·\|scale\| of (cx, cy) on each axis |
| TrigMath.MapOrigin | src/utils/math.ts:38-46 | math (0, 0) maps to (cx, cy) |
| TrigMath.Mapper.Map | src/utils/math.ts:33-48 | a point on a math axis lands on the pixel line through the centre: x = 0 gives px = cx and y = 0 gives py = cy |
| TrigMath.MapUnclamped | src/utils/math.ts:40-46 | within ±1000 the pixel lies x·scale right of and y·scale above the centre |
| TrigMath.MapRoundTrip | src/utils/math.ts:40-46 | within ±1000 and with scale ≠ 0, (px−cx)/scale = x and (cy−py)/scale = y |
| TrigMath.MapInvertsY | src/utils/math.ts:45 | with scale > 0 a larger math y never gives a larger pixel y, and gives a strictly smaller one within the clamp |
| TrigMath.FormatNumber | src/utils/math.ts:50-53 | "+∞" exactly when num > 1000, "-∞" exactly when num < −1000, and otherwise the number itself; the page's own `fmt` (src/components/UnitCircle/UnitCircle.tsx:13-16) is the same function |
| Overlays.HexValue | src/theme/overlays.ts:19-21 | parseInt of one hexadecimal digit, in either case, is below 16 |
| Overlays.HexChar | src/theme/overlays.ts:19-21 | the digit written for a value below 16 reads back as that value |
| Overlays.ParseHexPair | src/theme/overlays.ts:19-21 | a channel is 16·hi + lo of its digit pair and at most 255 |
| Overlays.WithAlpha | src/theme/overlays.ts:12-23 | the result starts with "rgba(" and ends with ", " + alpha + ")", so alpha is passed through unchanged; a colour of any length but 4 is parsed as given, without expansion |
| Overlays.Expand | src/theme/overlays.ts:14-17 | a 4-character `#xyz` becomes the 7-character `#xxyyzz`; input of any other length is used unchanged |
| Overlays.Channels | src/theme/overlays.ts:19-21 | each of r, g, b read from the slices [1,3), [3,5), [5,7) lies in [0, 255] |
| Overlays.NatToDecimal | src/theme/overlays.ts:22 | a channel is printed as a non-empty run of decimal digits |
| Overlays.DecimalRoundTrip | src/theme/overlays.ts:22 | the printed channel reads back as the same number |
| Overlays.ShorthandSameAsLongForm | src/theme/overlays.ts:15-17 | `#xyz` and `#xxyyzz` give the same rgba string for every alpha |
| Overlays.ChannelsOfLongForm | src/theme/overlays.ts:19-21 | for a valid 7-character colour each channel is 16·hi + lo of its digit pair |
| Overlays.FormatHex | src/theme/overlays.ts:19-21 | formatting three bytes gives a 7-character colour with three hex pairs, which withAlpha accepts |
| Overlays.FormatHexRoundTrip | src/theme/overlays.ts:19-21 | parsing the formatted `#rrggbb` gives back exactly the three bytes |
| Overlays.WithAlphaOfFormatted | src/theme/overlays.ts:19-22 | withAlpha on a formatted colour prints `rgba(r, g, b, alpha)` with those bytes and the alpha text unchanged |
| Overlays.OverlayAlphaLadder | src/theme/overlays.ts:28-39 | the presets are 0.05, 0.1, 0.15, 0.2 and 0.3, strictly increasing and inside (0, 1) |
| Overlays.HaloColor | src/theme/overlays.ts:46-50 | the dark halo exactly when isDark, the light halo exactly when not |
| Types.AllOff | src/data/lessons.tsx:21-28 | a reset record has exactly the listed keys, each mapped to false |
| Types.Spread | src/data/lessons.tsx:40-44 | `{...prev, ...over}`: the keys of over take its values, every other key of prev keeps its value, and no other key appears |
| Types.AllOn | src/data/lessons.tsx:40-44 | the record of a lesson's explicit `key: true` entries has exactly those keys, all true |
| CanvasHelpers.DrawLine | src/components/UnitCircle/canvas/helpers.ts:11-27 | drawLine appends one stroke of the segment p1→p2 with the given colour, width (default 2) and dash (default none), and leaves the dash empty afterwards whatever it was given |
| CanvasHelpers.DrawText | src/components/UnitCircle/canvas/helpers.ts:32-48 | drawText strokes the grey halo and then fills the label at the same point, in the label font, with align and baseline defaulting to center and middle |
| CanvasHelpers.DrawPoint | src/components/UnitCircle/canvas/helpers.ts:53-66 | drawPoint fills a radius-6 full circle and then strokes its border with width 2, the border defaulting to `#fff` |
| CanvasHelpers.DrawQuadrants | src/components/UnitCircle/canvas/helpers.ts:71-95 | drawQuadrants writes I, II, III, IV at (CX±W/4, CY±H/4) in that order, in a colour chosen by isDark alone |
| CanvasHelpers.DrawRightAngle | src/components/UnitCircle/canvas/helpers.ts:100-115 | drawRightAngle strokes the width-1 polyline (v.x+dX·s, v.y) → (v.x+dX·s, v.y+dY·s) → (v.x, v.y+dY·s) |
| CanvasHelpers.RightAngleIsSquareCorner | src/components/UnitCircle/canvas/helpers.ts:111-113 | with unit directions the mark is two sides, one vertical and one horizontal, of a square of side \|size\| whose fourth corner is the vertex |
| CanvasHelpers.QuadrantNumeralsInQuadrants | src/components/UnitCircle/canvas/helpers.ts:87-94 | on a canvas of positive size each numeral lies inside the canvas, in its own quadrant |
| CanvasHelpers.QuadrantNumeralsSymmetric | src/components/UnitCircle/canvas/helpers.ts:87-94 | numerals I and III, and II and IV, are point reflections of each other through the canvas centre |
| ProofOverlays.FillTriangle | src/components/UnitCircle/canvas/proofs.ts:35-41 | the begin/move/line/line/close/fill sequence appends one fill of the closed triangle in the chosen colour |
| ProofOverlays.DrawSineTriangleProof | src/components/UnitCircle/canvas/proofs.ts:32-52 | drawSineTriangleProof appends, in order, the fill of O→pXAxis→P, the cos, sin and radius sides (widths 4, 4, 2) and the labels "1", "cos", "sin", and leaves the dash solid |
| ProofOverlays.SineTriangleRightAngle | src/components/UnitCircle/canvas/proofs.ts:35-46 | for a mapper-built context O and pXAxis lie on the pixel x-axis, pXAxis and P share their x, and the angle at pXAxis is right |
| ProofOverlays.SineLabelSide | src/components/UnitCircle/canvas/proofs.ts:51 | the "sin" label is offset right of the vertical side, and aligned left, exactly when cos ≥ 0, at the side's mid-height |
| ProofOverlays.DrawTangentTriangleProof | src/components/UnitCircle/canvas/proofs.ts:58-81 | drawTangentTriangleProof appends the fill of O→map(dir,0)→map(dir,dir·tan), the three sides with the hypotenuse dashed [6,4], and the "1" and "tan" labels |
| ProofOverlays.TangentTriangleGeometry | src/components/UnitCircle/canvas/proofs.ts:61-63 | dir = +1 exactly when cos ≥ 0; the tangent side is vertical on x = dir and starts on the pixel x-axis |
| ProofOverlays.DrawGeneralFormUnitProof | src/components/UnitCircle/canvas/proofs.ts:87-104 | drawGeneralFormUnitProof appends the fill of O→pXAxis→P, its three sides and the "sin θ" and "1" labels |
| ProofOverlays.UnitOverlaysShareTriangle | src/components/UnitCircle/canvas/proofs.ts:35-46 | the sine and general-unit overlays fill the same triangle O, pXAxis, P and outline exactly its three sides |
| ProofOverlays.DrawGeneralFormTargetProof | src/components/UnitCircle/canvas/proofs.ts:109-140 | drawGeneralFormTargetProof appends the dashed [5,5] guide, the triangle fill, its three sides and the H, O, A labels, and leaves the dash solid |
| ProofOverlays.DrawTargetShapes | src/components/UnitCircle/canvas/proofs.ts:116-135 | the guide, the fill and the three sides of the target triangle, in source order |
| ProofOverlays.DrawTargetLabels | src/components/UnitCircle/canvas/proofs.ts:137-139 | the H, O and A labels, with O on the side of cos |
| ProofOverlays.TargetTriangleRightAngle | src/components/UnitCircle/canvas/proofs.ts:112-114 | pGenEnd = map(1.35·cos, 1.35·sin) and pGenAxis shares pGenEnd's x and the origin's y, so the triangle is right-angled at pGenAxis |
| ProofOverlays.DrawPythagoreanSquaresProof | src/components/UnitCircle/canvas/proofs.ts:146-168 | drawPythagoreanSquaresProof appends the a-square, the b-square, the guarded a² and b² labels and always "c² = 1" |
| ProofOverlays.SquaresLabelGuards | src/components/UnitCircle/canvas/proofs.ts:163-167 | "a²" is drawn exactly when cosSize > 10, "b²" exactly when sinSize > 10, and "c² = 1" always |
| ProofOverlays.LegSquaresPlacement | src/components/UnitCircle/canvas/proofs.ts:150-164 | the a-square has side \|pXAxis.x−origin.x\| and starts at min(origin.x, pXAxis.x) on y = origin.y; the b-square has side \|P.y−pXAxis.y\| and a width signed by cos; each label sits at its square's centre |
| ProofOverlays.DrawPythagoreanGeneralProof | src/components/UnitCircle/canvas/proofs.ts:174-232 | drawPythagoreanGeneralProof appends the triangle, the leg squares with their labels, the square on the hypotenuse and the side names, in source order |
| ProofOverlays.DrawLegSquares | src/components/UnitCircle/canvas/proofs.ts:177-199 | the triangle fill, then each leg's square followed by its label |
| ProofOverlays.DrawHypotenuseSquare | src/components/UnitCircle/canvas/proofs.ts:201-226 | the square P1, P2, P3, P4 built from the normal (−dy, dx)/len, filled, outlined with width 1 and labelled "c²" |
| ProofOverlays.DrawSideLabels | src/components/UnitCircle/canvas/proofs.ts:229-231 | the side names a, b and c beside the three sides |
| ProofOverlays.HypotenuseSquareIsSquare | src/components/UnitCircle/canvas/proofs.ts:202-212 | with len > 0, P3−P2 = P4−P1 = (dy, −dx), perpendicular to P1→P2 and of the same length, so P1P2P3P4 is a square |
| ProofOverlays.HypotenuseLabelAtCentre | src/components/UnitCircle/canvas/proofs.ts:226 | the "c²" label, the midpoint of P1–P3, is also the midpoint of P2–P4: the square's centre |
| SimilarSecant.DrawSimilarSecant | src/components/UnitCircle/canvas/similarSecant.ts:9-225 | drawSimilarSecant appends exactly the overlay's command list (nothing when the guard fails), including the mark at Py as written at line 181, and leaves the dash solid and the alpha at 1 |
| SimilarSecant.DrawTriangle | src/components/UnitCircle/canvas/similarSecant.ts:15-30 | the fill of O→P→S in the pale secant colour, then the dashed tangent P→S and the dashed secant O→S (width 2, dash [6, 6]) |
| SimilarSecant.StrokeMark | src/components/UnitCircle/canvas/similarSecant.ts:43-49 | a three-point mark is stroked as one open path with line width 1 |
| SimilarSecant.DrawStandardMarks | src/components/UnitCircle/canvas/similarSecant.ts:36-50 | the right-angle mark at pXAxis is appended with line width 1 and the dash left solid |
| SimilarSecant.DrawArcMark | src/components/UnitCircle/canvas/similarSecant.ts:59-69 | an angle arc at a vertex between two headings is stroked and its Greek label placed at the half-way heading |
| SimilarSecant.DrawAlphaAtP | src/components/UnitCircle/canvas/similarSecant.ts:54-70 | the α arc of radius 20 at P from the heading of pXAxis to the heading of O, labelled 30 px out |
| SimilarSecant.DrawAngles | src/components/UnitCircle/canvas/similarSecant.ts:36-168 | the standard mark, α at P, the square mark at P, α at S, θ at P and the supplementary mark, in source order |
| SimilarSecant.DrawAlphaAtS | src/components/UnitCircle/canvas/similarSecant.ts:106-122 | the α label at S placed 35 px along the bisector of the headings towards O and towards P, with no arc |
| SimilarSecant.DrawThetaAtP | src/components/UnitCircle/canvas/similarSecant.ts:125-146 | the θ arc of radius 25 at P from the tangent heading to the vertical heading, labelled 35 px out |
| SimilarSecant.DrawDuplicate | src/components/UnitCircle/canvas/similarSecant.ts:173-224 | the dotted P→Py and O→Py lines (width 1, dash [4, 4]), the mark at Py with dY = -1 when sin ≥ 0 and dX = +1 when cos ≥ 0 as written, α at the origin and θ at P |
| SimilarSecant.DrawAlphaAtOrigin | src/components/UnitCircle/canvas/similarSecant.ts:194-206 | the α arc of radius 20 at O from straight up (-π/2) to -rad, labelled 35 px out |
| SimilarSecant.DrawThetaAtPy | src/components/UnitCircle/canvas/similarSecant.ts:210-224 | the θ arc of radius 20 at P from the heading of Py to the heading of O, counter-clockwise exactly when rad > 0 |
| SimilarSecant.SecantGuard | src/components/UnitCircle/canvas/similarSecant.ts:13-22 | the overlay draws nothing exactly when \|cos\| <= 0.001; otherwise it draws 23 commands and the first is the fill of O→P→S |
| SimilarSecant.GuardKeepsSecantUnclamped | src/components/UnitCircle/canvas/similarSecant.ts:13-15 | with cos·sec = 1 the guard gives \|sec\| < 1000, so map(sec, 0) is not clamped and S = (cx + sec·scale, cy) |
| SimilarSecant.ReciprocalBound | src/components/UnitCircle/canvas/similarSecant.ts:13 | a number above 0.001 in size whose product with y is 1 forces \|y\| < 1000 |
| SimilarSecant.AbsMul | src/components/UnitCircle/canvas/similarSecant.ts:13 | \|x\|·\|y\| = \|x·y\|, the step that turns the guard into a bound on sec |
| SimilarSecant.SecantPointOnXAxis | src/components/UnitCircle/canvas/similarSecant.ts:15-22 | S lies on the pixel x-axis with O and pXAxis, and the fill visits O, P, S in that order |
| SimilarSecant.StandardMarkFacesTriangle | src/components/UnitCircle/canvas/similarSecant.ts:36-50 | the mark at pXAxis has 10 px legs along the axes, the horizontal one towards O and the vertical one towards P (both directions of each sign test) |
| SimilarSecant.FootBetweenOriginAndSecant | src/components/UnitCircle/canvas/similarSecant.ts:148-155 | for 0.001 < \|cos\| < 1 the foot pXAxis lies strictly between O and S, so "towards S" is "away from O" |
| SimilarSecant.SupplementaryMarkMirrorsStandard | src/components/UnitCircle/canvas/similarSecant.ts:150-168 | when pXAxis is between O and S the supplementary mark is the standard mark mirrored in the vertical side |
| SimilarSecant.OpenVertices | src/components/UnitCircle/canvas/similarSecant.ts:43-49 | a three-point mark visits its three points in order |
| SimilarSecant.CornerMarkVertices | src/components/UnitCircle/canvas/similarSecant.ts:94-101 | the mark at P visits c1 = P + 10u, c2 = c1 + 10v and c3 = P + 10v |
| SimilarSecant.PMarkParallelogram | src/components/UnitCircle/canvas/similarSecant.ts:73-102 | c2 - c1 = c3 - P, c1 is 10 px from P along P→O and c3 is 10 px from P along P→S |
| SimilarSecant.PerTimesLen | src/components/UnitCircle/canvas/similarSecant.ts:78-86 | dividing a component by its length and scaling by 10 gives back 10 times the component over the length |
| SimilarSecant.RadiusPerpendicularToTangent | src/components/UnitCircle/canvas/similarSecant.ts:72-102 | on the unit circle with cos·sec = 1 the radius P→O is perpendicular to the tangent P→S |
| SimilarSecant.PMarkIsSquareCorner | src/components/UnitCircle/canvas/similarSecant.ts:73-102 | hence the mark at P is a true square corner: legs of length 10 that are perpendicular |
| SimilarSecant.CornerMarkSquare | src/components/UnitCircle/canvas/similarSecant.ts:75-101 | a corner mark built from unit vectors along two perpendicular legs of non-zero length is a square corner |
| SimilarSecant.SquareCornerFromLegs | src/components/UnitCircle/canvas/similarSecant.ts:94-101 | perpendicular legs of length 10 make the mark a square corner |
| SimilarSecant.ScaledLegs | src/components/UnitCircle/canvas/similarSecant.ts:75-96 | scaling two perpendicular vectors to length 10 keeps them perpendicular and gives squared length 100 |
| SimilarSecant.DuplicateMarkAsWrittenPointsAway | src/components/UnitCircle/canvas/similarSecant.ts:180-190 | as written, for sin > 0 the mark at Py has its vertical leg above Py, which is above O: it points away from the duplicate triangle |
| SimilarSecant.SinAboveOrigin | src/components/UnitCircle/canvas/similarSecant.ts:181 | for sin > 0 and a positive scale the mapped Py is above O in pixel space |
| SimilarSecant.SinBelowOrigin | src/components/UnitCircle/canvas/similarSecant.ts:181 | for sin < 0 and a positive scale the mapped Py is below O in pixel space |
| SimilarSecant.DuplicateMarkFacesTriangle | src/components/UnitCircle/canvas/similarSecant.ts:179-190 | the corrected mark at Py has its vertical leg towards O and its horizontal leg towards P whenever sin and cos are non-zero |
| SimilarCosecant.DrawSimilarCosecant | src/components/UnitCircle/canvas/similarCosecant.ts:10-62 | drawSimilarCosecant appends exactly the overlay's commands (nothing when the guard fails) and leaves the dash solid and the alpha at 1 |
| SimilarCosecant.DrawCosecantBody | src/components/UnitCircle/canvas/similarCosecant.ts:16-61 | the fill of O→P→C, the dashed cotangent P→C and cosecant O→C (width 2, dash [6, 6]) and the square mark at P |
| SimilarCosecant.DrawRendererCosecant | src/components/UnitCircle/UnitCircleRenderer.ts:317-415 | the renderer's similarCsc block appends nothing when \|sin\| <= 0.001, else the body in its fixed fill colour and then the extras |
| SimilarCosecant.DrawCosecantExtras | src/components/UnitCircle/UnitCircleRenderer.ts:367-410 | θ at P from the heading of Py to the heading of C (radius 25), the θ label beside C and the supplementary mark at Py |
| SimilarCosecant.CosecantGuard | src/components/UnitCircle/canvas/similarCosecant.ts:14-61 | the overlay draws nothing exactly when \|sin\| <= 0.001; otherwise it draws exactly the fill in the cosecant colour at medium alpha, the two dashed sides and the mark at P |
| SimilarCosecant.RendererCosecantMatchesOverlay | src/components/UnitCircle/UnitCircleRenderer.ts:317-365 | the renderer's block has the same guard and its first four commands match the overlay's except for the fill colour; ten commands in all |
| SimilarCosecant.CosecantPointOnYAxis | src/components/UnitCircle/canvas/similarCosecant.ts:16-24 | C lies on the pixel y-axis with O and Py, and the fill visits O, P, C in that order |
| SimilarCosecant.GuardKeepsCosecantUnclamped | src/components/UnitCircle/canvas/similarCosecant.ts:14-16 | with sin·csc = 1 the guard gives \|csc\| < 1000, so map(0, csc) is not clamped and C = (cx, cy - csc·scale) |
| SimilarCosecant.CosecantPMarkParallelogram | src/components/UnitCircle/canvas/similarCosecant.ts:33-60 | c2 - c1 = c3 - P, c1 is 10 px from P along P→O and c3 is 10 px from P along P→C |
| SimilarCosecant.RadiusPerpendicularToCotangent | src/components/UnitCircle/canvas/similarCosecant.ts:32-60 | on the unit circle with sin·csc = 1 the radius P→O is perpendicular to the cotangent side P→C |
| SimilarCosecant.CosecantPMarkIsSquareCorner | src/components/UnitCircle/canvas/similarCosecant.ts:32-60 | hence the mark at P is a true square corner: legs of length 10 that are perpendicular |
| SimilarCosecant.ThetaLabelAtCFacesOrigin | src/components/UnitCircle/UnitCircleRenderer.ts:389 | the θ label sits 10 px right of C and 35 px from C on the side of the origin, for either sign of csc |
| SimilarCosecant.CosecantSupplementaryMarkFaces | src/components/UnitCircle/UnitCircleRenderer.ts:393-410 | the mark at Py has 10 px legs along the axes, the horizontal one towards P and the vertical one towards C (both directions of each sign test) |
| Renderer.Context | src/components/UnitCircle/UnitCircleRenderer.ts:19-27 | the frame's proof context is the one the mapper builds from centre (W/2, H/2) and radius min(W, H)/4.2 |
| Renderer.DrawUnitCircle | src/components/UnitCircle/UnitCircleRenderer.ts:8-789 | drawUnitCircle appends exactly the frame's command list, block by block in source order (the similarSec block with its mark at Py as written at line 268), and leaves the dash solid and the alpha at 1 |
| Renderer.DrawBase | src/components/UnitCircle/UnitCircleRenderer.ts:29-92 | the backdrop, the circle, the wedge and the radius, in that order |
| Renderer.DrawBackdrop | src/components/UnitCircle/UnitCircleRenderer.ts:29-55 | clear, background fill, the quadrants when toggled, then the two grid axes through the centre |
| Renderer.DrawCircle | src/components/UnitCircle/UnitCircleRenderer.ts:57-62 | one full circle of radius R round the centre, width 2, in the axis colour |
| Renderer.DrawWedge | src/components/UnitCircle/UnitCircleRenderer.ts:64-76 | the wedge fill from 0 to -rad (anticlockwise) of radius 50 and the angle label ("θ", or rad/π to two places and "π") at the half angle, 0.25 out |
| Renderer.DrawRadius | src/components/UnitCircle/UnitCircleRenderer.ts:78-92 | the radius O→P, solid width 2 with the label "1" when the hypotenuse toggle is on, dashed [4, 4] width 1 otherwise |
| Renderer.DrawConstructions | src/components/UnitCircle/UnitCircleRenderer.ts:94-431 | the similarSec and similarCsc blocks and the two geometric lines, each under its toggle; the similarSec block is the overlay's list, with the mark at Py as written at line 268 |
| Renderer.DrawGeo | src/components/UnitCircle/UnitCircleRenderer.ts:417-431 | dashed P→S in the tan colour under geoTan and dashed P→C in the cot colour under geoCot |
| Renderer.DrawFunctionLines | src/components/UnitCircle/UnitCircleRenderer.ts:433-521 | the cos, sin, tan, cot, sec, csc and complementary-angle blocks in source order |
| Renderer.DrawCosSin | src/components/UnitCircle/UnitCircleRenderer.ts:433-442 | cos: O→(cos, 0) width 4 labelled 15 px below its middle; sin: (cos, 0)→P width 4 labelled 15 px beside it, aligned away from the axis |
| Renderer.DrawTan | src/components/UnitCircle/UnitCircleRenderer.ts:444-454 | the dashed guide O→end, the tan segment from (dir, 0) to (dir, dir·tan), its end point and its label aligned away from the circle |
| Renderer.DrawCot | src/components/UnitCircle/UnitCircleRenderer.ts:456-466 | the dashed guide O→end, the cot segment from (0, dir) to (dir·cot, dir), its end point and its label above or below it |
| Renderer.DrawSecCsc | src/components/UnitCircle/UnitCircleRenderer.ts:468-484 | sec: O→S width 4, labelled 25 px below, point at S; csc: O→C width 4, labelled 15 px right, point at C |
| Renderer.DrawComp | src/components/UnitCircle/UnitCircleRenderer.ts:486-521 | under the comp toggle, the complementary arc at the centre and the α arc at P |
| Renderer.DrawCompAtCentre | src/components/UnitCircle/UnitCircleRenderer.ts:488-497 | the arc of radius 70 from -π/2 to -rad, anticlockwise exactly when cos < 0, and α at the mid angle, 0.45 out |
| Renderer.DrawCompAtP | src/components/UnitCircle/UnitCircleRenderer.ts:499-520 | the α arc of radius 20 at P from the heading of pXAxis to the heading of O, labelled 35 px out |
| Renderer.DrawProofs | src/components/UnitCircle/UnitCircleRenderer.ts:523-747 | the six proof overlays, each under its toggle, in source order |
| Renderer.DrawProof | src/components/UnitCircle/UnitCircleRenderer.ts:523-747 | one proof overlay's commands when its toggle is on, nothing otherwise |
| Renderer.DrawTail | src/components/UnitCircle/UnitCircleRenderer.ts:749-788 | the axis crossings, the coordinates label and the point marker |
| Renderer.DrawAxesIntersections | src/components/UnitCircle/UnitCircleRenderer.ts:750-772 | with the toggle on, the four crossings in order (1, 0), (-1, 0), (0, 1), (0, -1); nothing otherwise |
| Renderer.DrawCrossing | src/components/UnitCircle/UnitCircleRenderer.ts:757-771 | one crossing: a filled disc of radius 4 outlined in the background colour and its label offset away from the centre |
| Renderer.CrossingsCmds | src/components/UnitCircle/UnitCircleRenderer.ts:757-771 | each crossing contributes exactly four commands |
| Renderer.DrawShowXY | src/components/UnitCircle/UnitCircleRenderer.ts:774-783 | the "(x, y)" label offset 15 px sideways and 20 px vertically from P, aligned away from the vertical axis |
| Renderer.DrawMarker | src/components/UnitCircle/UnitCircleRenderer.ts:785-788 | the point marker at P unless the target or tangent proof is shown |
| Renderer.FrameStartsWithClear | src/components/UnitCircle/UnitCircleRenderer.ts:29-32 | every frame starts by clearing the whole canvas and then painting it in the background colour |
| Renderer.PrefixKept | src/components/UnitCircle/UnitCircleRenderer.ts:29-32 | appending later blocks keeps the first two commands |
| Renderer.BareFrame | src/components/UnitCircle/UnitCircleRenderer.ts:29-92 | with every toggle off a frame is the backdrop, circle, wedge, the dashed radius and the point marker: eleven commands |
| Renderer.RadiusAlwaysDrawn | src/components/UnitCircle/UnitCircleRenderer.ts:78-92 | the radius is drawn in every frame; solid, width 2 and labelled "1" exactly when the hypotenuse toggle is on, else dashed width 1 |
| Renderer.PointOnCircle | src/components/UnitCircle/UnitCircleRenderer.ts:49-62 | for cos² + sin² = 1, P is exactly R from the centre, so it lies on the drawn circle |
| Renderer.CircleInsideCanvas | src/components/UnitCircle/UnitCircleRenderer.ts:22-24 | for a canvas of positive size the circle of radius min(W, H)/4.2 lies strictly inside it |
| Renderer.ConstructionGuards | src/components/UnitCircle/UnitCircleRenderer.ts:95-317 | the similar-triangle blocks appear exactly when their toggle is on and \|cos\| > 0.001 (secant, 23 commands) or \|sin\| > 0.001 (cosecant, 10 commands), each starting with its fill |
| Renderer.TangentOnVerticalLine | src/components/UnitCircle/UnitCircleRenderer.ts:444-454 | the tan segment lies on x = dir and starts on the horizontal axis where that line touches the circle; its label is 20 px further out, aligned away |
| Renderer.TangentGuideThroughP | src/components/UnitCircle/UnitCircleRenderer.ts:446-450 | when cos·tan = sin the faint guide from O to the tan segment's end passes through P |
| Renderer.TangentGuideCollinear | src/components/UnitCircle/UnitCircleRenderer.ts:446-450 | the same for any context the mapper built |
| Renderer.CotangentGuideCollinear | src/components/UnitCircle/UnitCircleRenderer.ts:458-462 | when sin·cot = cos the guide from O to map(dir·cot, dir) passes through P |
| Renderer.ParallelOffsets | src/components/UnitCircle/UnitCircleRenderer.ts:446-462 | pixel offsets (a·r, -b·r) and (u·r, -v·r) with a·v = b·u are parallel |
| Renderer.SignedRatio | src/components/UnitCircle/UnitCircleRenderer.ts:446-460 | a·t = b carries over to the signed ratio a·(dir·t) = b·dir |
| Renderer.CircleOffsets | src/components/UnitCircle/UnitCircleRenderer.ts:24-51 | inside the clamp bound P lies cos·R right of and sin·R above the centre |
| Renderer.CotangentEndOffsets | src/components/UnitCircle/UnitCircleRenderer.ts:459-460 | inside the clamp bound the cot end lies at the pixel of (dir·cot, dir) |
| Renderer.TangentEndOffsets | src/components/UnitCircle/UnitCircleRenderer.ts:447-448 | inside the clamp bound the tan end lies at the pixel of (dir, dir·tan) |
| Renderer.CotangentOnHorizontalLine | src/components/UnitCircle/UnitCircleRenderer.ts:456-466 | the cot segment lies on y = dir starting on the vertical axis; its label is 15 px off it, with baseline "bottom" exactly when sin >= 0 |
| Renderer.CotangentGuideThroughP | src/components/UnitCircle/UnitCircleRenderer.ts:458-462 | when sin·cot = cos the guide from O to the cot segment's end passes through P |
| Renderer.SecantLinesOnAxes | src/components/UnitCircle/UnitCircleRenderer.ts:468-484 | S lies on the horizontal axis and C on the vertical axis; the sec line is O→S, width 4 |
| Renderer.GeometricTangentTouches | src/components/UnitCircle/UnitCircleRenderer.ts:417-423 | on the unit circle with cos·sec = 1 the geometric tangent P→S is perpendicular to the radius |
| Renderer.GeometricCotangentTouches | src/components/UnitCircle/UnitCircleRenderer.ts:425-431 | on the unit circle with sin·csc = 1 the geometric cotangent P→C is perpendicular to the radius |
| Renderer.CrossingLabelsOutside | src/components/UnitCircle/UnitCircleRenderer.ts:750-771 | the crossing labels sit 12 px beyond (±1, 0), aligned away, and 15 px beyond (0, ±1), centred; 16 commands with the toggle on, none without |
| Renderer.SignedProduct | src/components/UnitCircle/UnitCircleRenderer.ts:780-781 | a product with a non-negative factor keeps the other factor's sign, which places the coordinates label |
| Renderer.CoordinatesInQuadrant | src/components/UnitCircle/UnitCircleRenderer.ts:774-783 | the coordinates label lies in P's quadrant, at least 15 px off the vertical axis and 20 px off the horizontal one |
| Renderer.MarkerDrawnLast | src/components/UnitCircle/UnitCircleRenderer.ts:785-788 | the point marker closes the frame unless the target or tangent proof is shown; then the frame ends with the coordinates label |
| Steppers.CurrentStep | src/components/UnitCircle/steppers/AlgebraicStepper.tsx:36 | the step shown is the one at the index when it is in range and the first step otherwise; either way it is one of the steps |
| Steppers.NavigationInRange | src/components/UnitCircle/steppers/AlgebraicStepper.tsx:37-93 | Back and Next keep the step within 0..maxStep; each leaves it unchanged exactly when its button is disabled, and otherwise moves it by one |
| Steppers.HighlightClass | src/components/UnitCircle/steppers/AlgebraicStepper.tsx:59-63 | emerald for a result, amber for an intermediate step, the plain text class for a start or no highlight |
| Steppers.OneDotLit | src/components/UnitCircle/steppers/AlgebraicStepper.tsx:82-89 | for a step in range there is one dot per step and exactly one is lit, the one at the step |
| Steppers.IdentityDerivations | src/components/UnitCircle/steppers/PythagIdentity1Stepper.tsx:19-51 | each identity derivation has four steps highlighted start, intermediate, intermediate, result |
| Steppers.RecordKeys | src/components/UnitCircle/steppers/GeneralProofStepper.tsx:13-25 | whatever the step, the record an effect spreads writes exactly the stepper's reset keys |
| Steppers.NoSetterNoUpdate | src/components/UnitCircle/steppers/GeneralProofStepper.tsx:11 | without a setToggles prop the effect changes nothing |
| Steppers.OutsideResetUnchanged | src/components/UnitCircle/steppers/GeneralProofStepper.tsx:20-24 | a key outside the reset record keeps its presence and value: the spread only overwrites reset keys |
| Steppers.ReachableStepsHaveRecord | src/components/UnitCircle/steppers/GeneralProofStepper.tsx:19-25 | every step the buttons can reach has a branch that writes the toggles |
| Steppers.GeneralProofToggles | src/components/UnitCircle/steppers/GeneralProofStepper.tsx:13-25 | the unit triangle at every step, the target triangle exactly from step 1 on, every other reset key off |
| Steppers.LaterStepsAgree | src/components/UnitCircle/steppers/GeneralProofStepper.tsx:21-24 | steps 1 and 2 of the general-form and Pythagorean steppers write the same toggles |
| Steppers.PythagoreanToggles | src/components/UnitCircle/steppers/PythagoreanStepper.tsx:13-25 | sin, cos and the hypotenuse at every step, the squares exactly from step 1 on, every other reset key off |
| Steppers.Identity1Toggles | src/components/UnitCircle/steppers/PythagIdentity1Stepper.tsx:56-78 | sin, cos and the hypotenuse at every step, the sine triangle exactly from step 1 on, every other reset key off |
| Steppers.Identity2Toggles | src/components/UnitCircle/steppers/PythagIdentity2Stepper.tsx:80-109 | sin, cos and the hypotenuse for steps 0 and 1; from step 2 tan, sec, the hypotenuse and the geometric tangent, with sin and cos off |
| Steppers.Identity3Toggles | src/components/UnitCircle/steppers/PythagIdentity3Stepper.tsx:78-107 | sin, cos and the hypotenuse for steps 0 and 1; from step 2 cot, csc, the hypotenuse and the geometric cotangent, with sin and cos off |
| Steppers.EffectIdempotent | src/components/UnitCircle/steppers/GeneralProofStepper.tsx:10-26 | running a stepper's effect again on its own output changes nothing |
| Steppers.ProofStepper.constructor | src/components/UnitCircle/steppers/GeneralProofStepper.tsx:8-26 | mounting starts at step 0 and runs the effect once |
| Steppers.ProofStepper.SetStep | src/components/UnitCircle/steppers/GeneralProofStepper.tsx:8-26 | a new step re-runs the effect on the current toggles; setting the same step changes nothing |
| Steppers.ProofStepper.BackClicked | src/components/UnitCircle/steppers/GeneralProofStepper.tsx:82-83 | the step becomes max(0, step - 1), stays in range, and the toggles follow the new step unless the button was disabled |
| Steppers.ProofStepper.NextClicked | src/components/UnitCircle/steppers/GeneralProofStepper.tsx:94-95 | the step becomes min(last, step + 1), stays in range, and the toggles follow the new step unless the button was disabled |
| Lessons.Apply | src/data/lessons.tsx:30-277 | a lesson's updater keeps every key of prev, adds only keys it touches (the reset keys if it spreads RESET_DEFAULTS, and the keys it names), leaves every untouched key's value alone, and switches each of its keys on |
| Lessons.ResetDefaultsAllOff | src/data/lessons.tsx:21-28 | RESET_DEFAULTS sends exactly its listed keys to false and lists neither general-form proof key |
| Lessons.ResetLessonKeys | src/data/lessons.tsx:40-45 | after a lesson that spreads RESET_DEFAULTS, a reset key is on exactly when the lesson switches it on |
| Lessons.ResetThenOn | src/data/lessons.tsx:40-45 | spreading an all-off reset record and then some keys set true leaves a reset key on exactly when it is one of those keys |
| Lessons.LessonKeysOn | src/data/lessons.tsx:30-277 | every key a lesson switches on is on after its apply |
| Lessons.ExplicitLessonKeys | src/data/lessons.tsx:59-123 | the sine, cosine, tangent and cotangent lessons set every key they name: on when it is one of their on-keys, off otherwise |
| Lessons.UntouchedKeysKept | src/data/lessons.tsx:30-277 | a key that a lesson neither resets nor names keeps its presence and value from the previous toggles |
| Lessons.TangentLeavesOthers | src/data/lessons.tsx:98-104 | the tangent lesson leaves geoCot, comp, showXY, the axis intersections, cosOnCompSide and every proof toggle as they were |
| Lessons.GeneralFormKeepsTarget | src/data/lessons.tsx:191-195 | the general-form lesson turns proof_general_unit on and leaves proof_general_target as it was, since no reset lists it |
| Lessons.ApplyIdempotent | src/data/lessons.tsx:30-277 | applying a lesson twice gives the same toggles as applying it once |
| Lessons.UnitCircleIsPythagoreanIdentity | src/data/lessons.tsx:40-45 | the unit-circle lesson and the sin² + cos² = 1 lesson produce the same toggles from any previous state |
| Lessons.LessonsOnePerId | src/data/lessons.tsx:30-277 | the catalogue has fourteen lessons, one per id, each at its fixed position and nowhere else |
| UnitCircleView.KeepFar | src/components/UnitCircle/UnitCircle.tsx:111 | the filter keeps exactly the stored points more than 0.1° from the new angle, in their order, and never adds one |
| UnitCircleView.Insert | src/components/UnitCircle/UnitCircle.tsx:112 | inserting into a trace sorted by angle keeps it sorted and adds exactly the new point |
| UnitCircleView.HeadBelowRest | src/components/UnitCircle/UnitCircle.tsx:112 | the head of a sorted trace that is not above the new point stays in front of the tail with the point inserted |
| UnitCircleView.SortByAngle | src/components/UnitCircle/UnitCircle.tsx:112 | the sort by ascending angle returns a sorted permutation of its input |
| UnitCircleView.UpdateTrace | src/components/UnitCircle/UnitCircle.tsx:110-113 | the new trace is sorted by angle, is a permutation of the far points plus the new point, and is at most one longer than before |
| UnitCircleView.UpdateTraceSpec | src/components/UnitCircle/UnitCircle.tsx:97-115 | the updated trace is sorted, holds the new point and every stored point farther than 0.1° from it, holds no other point, and grows by at most one |
| UnitCircleView.KeepFarSpaced | src/components/UnitCircle/UnitCircle.tsx:111 | filtering keeps a trace whose points are pairwise more than 0.1° apart spaced |
| UnitCircleView.TailSpaced | src/components/UnitCircle/UnitCircle.tsx:111-112 | the tail of a spaced trace is spaced |
| UnitCircleView.HeadFarFromTail | src/components/UnitCircle/UnitCircle.tsx:111-112 | the head of a spaced trace is more than 0.1° from every later point |
| UnitCircleView.ConsSpaced | src/components/UnitCircle/UnitCircle.tsx:112 | a point far from every point of a spaced trace can be put in front of it and the result stays spaced |
| UnitCircleView.InsertSpaced | src/components/UnitCircle/UnitCircle.tsx:112 | inserting a point far from every stored point into a sorted spaced trace keeps it spaced |
| UnitCircleView.SortSpaced | src/components/UnitCircle/UnitCircle.tsx:112 | sorting a spaced trace keeps it spaced |
| UnitCircleView.UpdateTraceSpaced | src/components/UnitCircle/UnitCircle.tsx:97-115 | updating a spaced trace leaves it spaced, because the filter removes every point within 0.1° of the new one |
| UnitCircleView.SortedSpacedIncreasing | src/components/UnitCircle/UnitCircle.tsx:112 | a sorted spaced trace is strictly increasing in angle, so the comparator never meets a tie |
| UnitCircleView.IncreasingUnique | src/components/UnitCircle/UnitCircle.tsx:112 | two strictly increasing traces with the same points are equal: the sorted order is unique, whatever the sort's stability |
| UnitCircleView.SameHead | src/components/UnitCircle/UnitCircle.tsx:112 | two strictly increasing traces with the same points start with the same point |
| UnitCircleView.DropHead | src/components/UnitCircle/UnitCircle.tsx:112 | removing an equal head from two traces with the same points leaves tails with the same points |
| UnitCircleView.IncreasingTail | src/components/UnitCircle/UnitCircle.tsx:112 | the tail of a strictly increasing trace is strictly increasing |
| UnitCircleView.Round | src/components/UnitCircle/UnitCircle.tsx:187-189 | Math.round gives the integer within half a unit of its input, halves rounded up |
| UnitCircleView.ShiftSnapsTo15 | src/components/UnitCircle/UnitCircle.tsx:186-187 | with shift held the snapped angle is a multiple of 15° within 7.5° of the cursor's angle |
| UnitCircleView.FreeSnapsToTenths | src/components/UnitCircle/UnitCircle.tsx:188-189 | without shift the snapped angle is a whole number of tenths of a degree within 0.05° of the cursor's angle |
| UnitCircleView.InteractionAngleSnapped | src/components/UnitCircle/UnitCircle.tsx:182-192 | the stored angle lies in [0, 360) and keeps its snap: a multiple of 15° with shift, of 0.1° without |
| UnitCircleView.FullTurnStoredAsZero | src/components/UnitCircle/UnitCircle.tsx:192 | a snap that lands on 360° is stored as 0° |
| UnitCircleView.UnitCircleView.constructor | src/components/UnitCircle/UnitCircle.tsx:51-72 | the page starts at 58° with an empty trace |
| UnitCircleView.UnitCircleView.AddToTrace | src/components/UnitCircle/UnitCircle.tsx:97-115 | updateTrace replaces the trace by its update and keeps it sorted and spaced |
| UnitCircleView.UnitCircleView.HandleInteraction | src/components/UnitCircle/UnitCircle.tsx:182-194 | the angle becomes the wrapped, snapped and normalised cursor angle and the trace is updated with it |
| UnitCircleView.UnitCircleView.SliderChange | src/components/UnitCircle/UnitCircle.tsx:226-229 | the slider value is stored as it is and the trace is updated with it |
| UnitCircleView.UnitCircleView.ResetTrace | src/components/UnitCircle/UnitCircle.tsx:266 | the graphs' Reset empties the trace |
| TrigGraph.YRange | src/components/TrigGraph.tsx:56-57 | the vertical range is positive: 1.1 for sine and cosine, 10 for the others |
| TrigGraph.MapX | src/components/TrigGraph.tsx:50-59 | 0° maps to the left padding and 360° to the right edge of the plot |
| TrigGraph.MapY | src/components/TrigGraph.tsx:60 | -Y_RANGE maps to the bottom of the plot and +Y_RANGE to its top |
| TrigGraph.MapYFlipped | src/components/TrigGraph.tsx:60 | mapping onto the reversed pixel range is mapping the negated value onto the forward range |
| TrigGraph.MapYDecreasing | src/components/TrigGraph.tsx:60 | on a canvas tall enough for the padding a larger value is drawn no lower |
| TrigGraph.VisibleInsidePlot | src/components/TrigGraph.tsx:59-60 | a point with angle in [0, 360] and a value within Y_RANGE lands inside the padded plot area |
| TrigGraph.PlotPath | src/components/TrigGraph.tsx:147-165 | the path of the first n points has at most n commands, each a moveTo or a lineTo |
| TrigGraph.PlotPathLength | src/components/TrigGraph.tsx:147-165 | the plot has one moveTo or lineTo per visible point and nothing else |
| TrigGraph.PlotPathEmpty | src/components/TrigGraph.tsx:147-165 | the plot is empty exactly when none of the points is within range |
| TrigGraph.PlotStartsWithMoveTo | src/components/TrigGraph.tsx:159-161 | a non-empty plot starts with a moveTo: the first visible point opens the path |
| TrigGraph.PlotPathAscending | src/components/TrigGraph.tsx:145-165 | on the sorted trace the plot runs left to right and never beyond the last point's angle |
| TrigGraph.BoundedPlotUnbroken | src/components/TrigGraph.tsx:152-164 | with every value in [-1, 1] the sine and cosine plots are unbroken: a moveTo at the first point and a lineTo at every later one |
| TrigGraph.DrawPlot | src/components/TrigGraph.tsx:137-167 | nothing for an empty trace; otherwise one stroke of width 2 in the graph colour along the plot path of the sorted trace |
| TrigGraph.TracePlotPath | src/components/TrigGraph.tsx:143-165 | the loop with its "first" flag builds exactly the plot path: out-of-range points are skipped and break the line |
| TrigGraph.Reciprocal | src/components/TrigGraph.tsx:175-177 | 1/x is defined exactly when x is not zero, and then its product with x is 1 |
| TrigGraph.DotInsidePlot | src/components/TrigGraph.tsx:169-191 | the dot is drawn exactly when the current value is finite and within Y_RANGE, and then its centre lies inside the plot |
| TrigGraph.NoDotAtPole | src/components/TrigGraph.tsx:175-180 | the cotangent, secant and cosecant dots are hidden where their divisor is zero |
| TrigGraph.DrawDot | src/components/TrigGraph.tsx:179-191 | the dot: a radius-4 circle filled in the background colour and outlined in the graph colour, width 2 |
| TrigGraph.RefLinesInside | src/components/TrigGraph.tsx:70-81 | the dashed reference lines at ±1 or ±10 are within range and drawn inside the plot |
| TrigGraph.XLabelsDistinct | src/components/TrigGraph.tsx:116-121 | the five x labels differ from one another in either unit |
| TrigGraph.YLabelReadsBack | src/components/TrigGraph.tsx:128-135 | a positive y label is "+" and its digits, a negative one "-" and its digits, zero is "0"; the digits read back as the value |
| TrigGraph.DrawSingleGraph | src/components/TrigGraph.tsx:25-193 | one graph's canvas holds the background, the grid, the indicator, the labels, the plot and the dot, in source order |
| TrigGraph.DrawBackdrop | src/components/TrigGraph.tsx:40-109 | the background fill, the grid and the current-angle indicator |
| TrigGraph.DrawData | src/components/TrigGraph.tsx:137-191 | the plot followed by the current-value dot |
| TrigGraph.DrawGrid | src/components/TrigGraph.tsx:62-109 | the dashed reference lines, the zero axes and the current-angle indicator |
| TrigGraph.DrawRefLines | src/components/TrigGraph.tsx:62-83 | one stroke, dashed [4, 4] in the grid colour, of the reference lines; the dash is reset afterwards |
| TrigGraph.DrawAxes | src/components/TrigGraph.tsx:85-98 | one solid stroke of the zero line and the x = 0 line |
| TrigGraph.DrawIndicator | src/components/TrigGraph.tsx:100-109 | a faint dashed [3, 3] vertical line at the current angle across the plot; the dash is reset afterwards |
| TrigGraph.DrawLabels | src/components/TrigGraph.tsx:111-135 | the x labels centred below the plot and the y labels right-aligned left of it |
| TrigGraph.DrawXLabels | src/components/TrigGraph.tsx:111-121 | the labels at 0, 90, 180, 270 and 360, in degrees or in multiples of π |
| TrigGraph.DrawXLabelsAt | src/components/TrigGraph.tsx:116-121 | one centred label per tick, 5 px above the bottom, in order |
| TrigGraph.DrawYLabels | src/components/TrigGraph.tsx:123-135 | the labels at +1, 0, -1 or +10, 0, -10, right-aligned and vertically centred |
| TrigGraph.DrawYLabelsAt | src/components/TrigGraph.tsx:128-135 | one label per value, 5 px left of the plot at the value's height, in order |
| TrigGraph.Rank | src/components/TrigGraph.tsx:211-216 | each curve has a position in the fixed order sin, cos, tan, cot, sec, csc |
| TrigGraph.ActiveListSpec | src/components/TrigGraph.tsx:210-216 | the active list holds exactly the graphs whose toggle is on, each with its label and colour, in the fixed order |
| TrigGraph.ActiveGraphs | src/components/TrigGraph.tsx:210-216 | the pushes collect exactly the graphs whose toggle is on, each with its label and colour, in the fixed order without repeats |
| PythagoreanProof.LayoutFor | src/components/UnitCircle/PythagoreanProofCanvas.tsx:34-39 | the inner square starts at the padding, its side S = width - 60 splits as a + b with a = 0.4 S, b = 0.6 S, and it ends 30 px from the right edge |
| PythagoreanProof.LayoutProper | src/components/UnitCircle/PythagoreanProofCanvas.tsx:34-39 | for a width of at least 60 both legs are non-negative |
| PythagoreanProof.KeyframesInSquare | src/components/UnitCircle/PythagoreanProofCanvas.tsx:59-71 | every vertex of both triangle arrangements and every corner of the c² square lies inside the outer square |
| PythagoreanProof.ConfigTrianglesRight | src/components/UnitCircle/PythagoreanProofCanvas.tsx:59-71 | each of the four triangles in both arrangements is right-angled, with legs a and b along the axes |
| PythagoreanProof.TriangleThreeFixed | src/components/UnitCircle/PythagoreanProofCanvas.tsx:62-69 | triangle III is in the same place in both arrangements |
| PythagoreanProof.Config2Translates | src/components/UnitCircle/PythagoreanProofCanvas.tsx:59-71 | the second arrangement moves each triangle without turning it: I by (a, b), II by (-b, 0), III not at all, IV by (0, -a) |
| PythagoreanProof.HypotenusesBoundCSquare | src/components/UnitCircle/PythagoreanProofCanvas.tsx:59-64 | in the first arrangement the four hypotenuses are exactly the four sides of the c² square |
| PythagoreanProof.CSquareIsSquare | src/components/UnitCircle/PythagoreanProofCanvas.tsx:246-251 | each side of the c² path is the previous one turned a quarter, and each has squared length a² + b² |
| PythagoreanProof.RearrangedPieces | src/components/UnitCircle/PythagoreanProofCanvas.tsx:66-71 | in the second arrangement the triangles pair off into two a-by-b rectangles, which do not overlap each other or the a² and b² squares; the pieces' areas add up to S² |
| PythagoreanProof.LabelsCentreSpans | src/components/UnitCircle/PythagoreanProofCanvas.tsx:44-56 | each edge letter sits at the middle of its drawn span, and at both steps each edge is tiled by one span of length a and one of length b |
| PythagoreanProof.CLabelAsWrittenOnLeg | src/components/UnitCircle/PythagoreanProofCanvas.tsx:234-241 | as written, for triangles III and IV the "c" at the midpoint of p2 and p3 lies on a leg, not at the middle of the hypotenuse |
| PythagoreanProof.FartherByLeg | src/components/UnitCircle/PythagoreanProofCanvas.tsx:236-237 | two offsets that agree on one axis, with only one of them non-zero on the other axis, have different squared lengths |
| PythagoreanProof.SqPositive | src/components/UnitCircle/PythagoreanProofCanvas.tsx:236-237 | the square of a positive number is positive |
| PythagoreanProof.HypotenuseMidEquidistant | src/components/UnitCircle/PythagoreanProofCanvas.tsx:234-241 | the middle of a right triangle's hypotenuse is equally far from all three vertices |
| PythagoreanProof.CLabelSpotOnHypotenuse | src/components/UnitCircle/PythagoreanProofCanvas.tsx:234-241 | the corrected "c" spot is the middle of the hypotenuse of every triangle in both arrangements |
| PythagoreanProof.SceneByStep | src/components/UnitCircle/PythagoreanProofCanvas.tsx:133-285 | step 0 shows only the frame; the c² square appears exactly at step 1, a² and b² exactly at step 2, the edge labels at steps 1 and 2 |
| PythagoreanProof.RearrangementCanvas.constructor | src/components/UnitCircle/PythagoreanProofCanvas.tsx:24-31 | the canvas mounts with empty triangle and label refs and the layout for its width |
| PythagoreanProof.RearrangementCanvas.SetStep | src/components/UnitCircle/PythagoreanProofCanvas.tsx:73-131 | once its tweens finish, step 0 empties the refs, step 1 holds the first arrangement and its labels, step 2 the second, and any other step changes nothing; the refs hold labels exactly when they hold triangles, and then all four |
| PythagoreanProof.RearrangementCanvas.MoveTrianglesTo | src/components/UnitCircle/PythagoreanProofCanvas.tsx:100-104 | moving each triangle to its target leaves the refs holding exactly the target arrangement |
| PythagoreanProof.RearrangementCanvas.Draw | src/components/UnitCircle/PythagoreanProofCanvas.tsx:133-285 | a frame draws the background and outer square, the edge labels, the triangles (each "c" at the midpoint of p2 and p3, as written), the c² square and the a², b² squares, in that order |
| PythagoreanProof.DrawFrame | src/components/UnitCircle/PythagoreanProofCanvas.tsx:145-152 | clear, a dark fill over the canvas, then the outer square stroked at width 2 |
| PythagoreanProof.DrawEdgeLabels | src/components/UnitCircle/PythagoreanProofCanvas.tsx:154-205 | at steps 1 and 2, with labels present, the four letters and then the four coloured spans; nothing otherwise |
| PythagoreanProof.DrawRotatedLetter | src/components/UnitCircle/PythagoreanProofCanvas.tsx:167-180 | a left-edge letter is drawn rotated a quarter turn, 14 px left of the square at its label position |
| PythagoreanProof.DrawSpans | src/components/UnitCircle/PythagoreanProofCanvas.tsx:182-204 | the top and left spans for the step, width 3, a in blue and b in red |
| PythagoreanProof.DrawSpan | src/components/UnitCircle/PythagoreanProofCanvas.tsx:191-204 | one span: a single stroked segment in its colour |
| PythagoreanProof.DrawTriangles | src/components/UnitCircle/PythagoreanProofCanvas.tsx:207-242 | each triangle in order, with its colour and numeral, and from step 1 its "c" at the midpoint of p2 and p3 as written |
| PythagoreanProof.DrawTriangle | src/components/UnitCircle/PythagoreanProofCanvas.tsx:211-241 | one triangle's fill, outline and labels, its "c" at the midpoint of p2 and p3 as written |
| PythagoreanProof.DrawTriangleShape | src/components/UnitCircle/PythagoreanProofCanvas.tsx:212-223 | the closed triangle filled in its colour at alpha 0.85, then outlined in faint white at width 1, with alpha back at 1 |
| PythagoreanProof.DrawTriangleLabels | src/components/UnitCircle/PythagoreanProofCanvas.tsx:225-241 | the numeral at the centroid and, from step 1 on, the "c" at the midpoint of p2 and p3, as written; that is the middle of the hypotenuse only for triangles I and II (see CLabelAsWrittenOnLeg) |
| PythagoreanProof.DrawCSquare | src/components/UnitCircle/PythagoreanProofCanvas.tsx:244-262 | at step 1 with four triangles, the c² square filled and stroked and "c²" at the centre; nothing otherwise |
| PythagoreanProof.TraceCSquare | src/components/UnitCircle/PythagoreanProofCanvas.tsx:246-251 | the path is the closed quadrilateral through the four points where the first arrangement's hypotenuses meet |
| PythagoreanProof.DrawSquares | src/components/UnitCircle/PythagoreanProofCanvas.tsx:264-284 | at step 2 the a² square at the bottom left and the b² square at the top right, each filled, stroked and labelled; nothing otherwise |
| PythagoreanProof.DrawASquare | src/components/UnitCircle/PythagoreanProofCanvas.tsx:266-275 | the a² square filled, stroked at width 2 and labelled at its centre |
| PythagoreanProof.DrawBSquare | src/components/UnitCircle/PythagoreanProofCanvas.tsx:277-283 | the b² square filled, stroked and labelled at its centre |

## Left out

- Floating point: numbers are mathematical reals, so rounding, NaN and Infinity are not modelled. A reciprocal of zero, which JavaScript turns into an infinity, is `None` in `TrigGraph`.
- Math.sin, Math.cos and Math.tan: the six trig values of the angle are inputs. They are linked only by the identities a contract names.
- Math.sqrt: a length is a real parameter that the caller must show squares to the sum of squared offsets.
- Math.cos, Math.sin and Math.atan2 on computed angles, which the arc marks and the bisector labels use, and `toFixed(2)`: these are fields of the given `TrigMath.JsMath` record and are left uninterpreted.
- TrigMath.FormatNumber: below the infinity threshold it returns the number itself, not its `toFixed(3)` text.
- ProofOverlays.Per: a division by a zero length gives 0 here, where JavaScript gives NaN. Every caller passes a positive length, so no drawn point depends on this.
- Overlays.Fraction: an alpha is a decimal fraction written "0." followed by its digits, while the source prints any number. The only caller passes a preset, and every preset has that form.
- Overlays.WithAlpha: requires a valid hex colour. With invalid digits `parseInt` yields NaN, and the "rgba(NaN, …)" text is not modelled.
- Steppers.CurrentStep: requires a non-empty list of steps. On an empty list the program reads `steps[0]` as undefined and then fails.
- The toggle record is an enumeration of its boolean keys. `pythagStep`, the one numeric field, is not part of it, so it is always kept as it was.
- gsap tweens: easing, durations, the 50 ms `setTimeout` and interruption mid-tween are left out. Each tween is taken as finished, so a field holds the tween's target.
- Device-pixel-ratio scaling, `requestAnimationFrame`, `getBoundingClientRect` and the canvas resize performed by `useCanvas`: a frame starts from a fresh recorder.
- The conversion of the cursor position to an angle with `atan2` in `handleInteraction`: the model starts from the angle in degrees and models the snapping and normalising that follow.
- React rendering and JSX: the stepper and lesson panels' markup, the empty-graph-list message, and the props that the page passes or fails to pass to its children.
- The order of equal keys under JavaScript's `sort`: the trace never holds two angles within 0.1° of each other, so the sort has no ties to order.
- src/components/InteractiveCircle.tsx and src/hooks/useTrigMath.ts are SVG and interface code and are not part of this model. `useTrigMath` imports helpers that src/utils/math.ts does not export.
- src/components/UnitCircle/DiagramPanel.tsx is not part of this model. It is not valid TypeScript: it opens with a Markdown fence and declares `DiagramPanel` twice.
- Theme contexts (localStorage, matchMedia), the colour tables, and the other interface components: colours are the literal strings the drawing code uses.

## Findings

| source | as written | input that shows it | evidently intended | confidence | as-written member | corrected member |
|---|---|---|---|---|---|---|
| src/components/UnitCircle/canvas/similarSecant.ts:181 | the right-angle mark of the duplicate triangle at pYAxis sets dY = -1 when sin ≥ 0; pixel y grows downward, so the mark points up, away from the origin, and is drawn outside the triangle (the renderer's inline copy in UnitCircleRenderer.ts repeats the line; the drawing methods draw this mark as written) | any angle with sin > 0 and a positive scale: pYAxis lies above the origin and the mark points further up | the mark points from pYAxis toward the origin, into the triangle, as the marks at pXAxis do | not executed | SimilarSecant.DuplicateMarkAsWrittenPointsAway | SimilarSecant.DuplicateMarkFacesTriangle |
| src/components/UnitCircle/PythagoreanProofCanvas.tsx:235-241 | the "c" of each triangle is drawn at the midpoint of p2 and p3, but triangles III and IV have their right angle at p2, so for them that midpoint lies on a leg (the drawing methods put the "c" there, as written) | any width above 60, at step 1: triangle III's p2–p3 is its vertical leg and triangle IV's its horizontal leg | the "c" sits at the middle of each triangle's hypotenuse | not executed | PythagoreanProof.CLabelAsWrittenOnLeg | PythagoreanProof.CLabelSpotOnHypotenuse |
