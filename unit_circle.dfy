/**
 * The interactive state of the unit-circle page (src/components/UnitCircle/UnitCircle.tsx):
 * the current angle and the trace of visited angles the graphs plot.
 *
 * updateTrace drops every stored point within 0.1° of the new angle, appends
 * the new point and sorts by angle. Dragging on the canvas turns the cursor
 * direction into degrees, snaps them (to 15° with shift held, otherwise to
 * tenths of a degree) and normalises them into [0, 360) before storing the
 * angle and updating the trace. The readout formatter `fmt` is
 * TrigMath.FormatNumber.
 */
module UnitCircleView {
  import opened TrigMath
  import opened Types

  /** One visited angle (degrees) with the six values Math gave for it. */
  datatype TracePoint = TracePoint(angle: real, values: TrigValues)

  /** The filter test of updateTrace: a stored point survives when it is more than 0.1° away. */
  predicate Far(q: TracePoint, newAngle: real) { Abs(q.angle - newAngle) > 0.1 }

  /** `prev.filter(p => Math.abs(p.angle - newAngle) > 0.1)`. */
  function KeepFar(prev: seq<TracePoint>, newAngle: real): (r: seq<TracePoint>)
    ensures |r| <= |prev|
    ensures forall q :: q in r ==> q in prev && Far(q, newAngle)
    ensures forall q :: q in prev && Far(q, newAngle) ==> q in r
    ensures multiset(r) <= multiset(prev)
  {
    if prev == [] then []
    else
      assert prev == [prev[0]] + prev[1..];
      if Far(prev[0], newAngle) then [prev[0]] + KeepFar(prev[1..], newAngle)
      else KeepFar(prev[1..], newAngle)
  }

  predicate SortedByAngle(s: seq<TracePoint>)
  {
    forall i, j :: 0 <= i < j < |s| ==> s[i].angle <= s[j].angle
  }

  /** Inserts p into a sorted trace after every point whose angle is not larger. */
  function Insert(s: seq<TracePoint>, p: TracePoint): (r: seq<TracePoint>)
    requires SortedByAngle(s)
    ensures SortedByAngle(r)
    ensures multiset(r) == multiset(s) + multiset{p}
    ensures forall q :: q in r ==> q in s || q == p
  {
    if s == [] then [p]
    else if s[0].angle <= p.angle then
      var rest := Insert(s[1..], p);
      HeadBelowRest(s, p, rest);
      [s[0]] + rest
    else
      [p] + s
  }

  /** The head of a sorted trace, not above p, can go in front of p inserted into its tail. */
  lemma HeadBelowRest(s: seq<TracePoint>, p: TracePoint, rest: seq<TracePoint>)
    requires s != [] && SortedByAngle(s) && s[0].angle <= p.angle
    requires SortedByAngle(rest) && multiset(rest) == multiset(s[1..]) + multiset{p}
    ensures SortedByAngle([s[0]] + rest)
    ensures multiset([s[0]] + rest) == multiset(s) + multiset{p}
  {
    assert s == [s[0]] + s[1..];
    forall k | 0 <= k < |rest|
      ensures s[0].angle <= rest[k].angle
    {
      assert rest[k] in multiset(rest);
      if rest[k] != p {
        assert rest[k] in multiset(s[1..]);
        var t :| 0 <= t < |s[1..]| && s[1..][t] == rest[k];
        assert s[t + 1] == rest[k];
      }
    }
  }

  /** `.sort((a, b) => a.angle - b.angle)`: an insertion sort by angle, ascending. */
  function SortByAngle(s: seq<TracePoint>): (r: seq<TracePoint>)
    ensures SortedByAngle(r)
    ensures multiset(r) == multiset(s)
    ensures |r| == |s|
  {
    if s == [] then []
    else
      var prefix, last := s[..|s| - 1], s[|s| - 1];
      assert multiset(s) == multiset(prefix) + multiset{last} by {
        assert s == prefix + [last];
      }
      Insert(SortByAngle(prefix), last)
  }

  /** updateTrace's state update: drop the near points, add the new one, sort. */
  function UpdateTrace(prev: seq<TracePoint>, newAngle: real, values: TrigValues): (r: seq<TracePoint>)
    ensures SortedByAngle(r)
    ensures multiset(r) == multiset(KeepFar(prev, newAngle)) + multiset{TracePoint(newAngle, values)}
    ensures |r| <= |prev| + 1
  {
    SortByAngle(KeepFar(prev, newAngle) + [TracePoint(newAngle, values)])
  }

  /**
   * The updated trace is sorted by angle, holds the new point, keeps every
   * stored point farther than 0.1° from it, holds no other stored point, and
   * is at most one longer than before.
   */
  lemma UpdateTraceSpec(prev: seq<TracePoint>, newAngle: real, values: TrigValues)
    ensures var r := UpdateTrace(prev, newAngle, values);
      SortedByAngle(r)
      && TracePoint(newAngle, values) in r
      && (forall q :: q in prev && Far(q, newAngle) ==> q in r)
      && (forall q :: q in r ==> q == TracePoint(newAngle, values) || (q in prev && Far(q, newAngle)))
      && |r| <= |prev| + 1
  {
    var p := TracePoint(newAngle, values);
    var kept := KeepFar(prev, newAngle);
    var r := UpdateTrace(prev, newAngle, values);
    assert multiset(r) == multiset(kept) + multiset{p};
    assert p in multiset(r);
    forall q | q in prev && Far(q, newAngle)
      ensures q in r
    {
      assert q in kept;
      assert q in multiset(kept);
      assert q in multiset(r);
    }
    forall q | q in r
      ensures q == p || (q in prev && Far(q, newAngle))
    {
      assert q in multiset(kept + [p]);
      assert q in kept + [p];
    }
  }

  /** No two points of the trace lie within 0.1° of each other. */
  predicate Spaced(s: seq<TracePoint>)
  {
    forall i, j :: 0 <= i < |s| && 0 <= j < |s| && i != j ==> Abs(s[i].angle - s[j].angle) > 0.1
  }

  predicate StrictlyIncreasing(s: seq<TracePoint>)
  {
    forall i, j :: 0 <= i < j < |s| ==> s[i].angle < s[j].angle
  }

  /** p is more than 0.1° away from every point of s. */
  predicate FarFromAll(s: seq<TracePoint>, p: TracePoint)
  {
    forall q :: q in s ==> Far(q, p.angle)
  }

  /** A filter keeps the spacing of what it filters. */
  lemma {:induction false} KeepFarSpaced(prev: seq<TracePoint>, newAngle: real)
    requires Spaced(prev)
    ensures Spaced(KeepFar(prev, newAngle))
  {
    if prev != [] {
      var tail := prev[1..];
      TailSpaced(prev);
      KeepFarSpaced(tail, newAngle);
      if Far(prev[0], newAngle) {
        HeadFarFromTail(prev);
        ConsSpaced(prev[0], KeepFar(tail, newAngle));
      }
    }
  }

  lemma TailSpaced(s: seq<TracePoint>)
    requires s != [] && Spaced(s)
    ensures Spaced(s[1..])
  {
    forall i, j | 0 <= i < |s| - 1 && 0 <= j < |s| - 1 && i != j
      ensures Abs(s[1..][i].angle - s[1..][j].angle) > 0.1
    {
      assert s[1..][i] == s[i + 1] && s[1..][j] == s[j + 1];
    }
  }

  lemma HeadFarFromTail(s: seq<TracePoint>)
    requires s != [] && Spaced(s)
    ensures FarFromAll(s[1..], s[0])
  {
    forall q | q in s[1..]
      ensures Far(q, s[0].angle)
    {
      var k :| 0 <= k < |s[1..]| && s[1..][k] == q;
      assert s[k + 1] == q;
    }
  }

  /** Putting a point in front of a spaced sequence it is far from keeps the spacing. */
  lemma ConsSpaced(p: TracePoint, s: seq<TracePoint>)
    requires Spaced(s) && FarFromAll(s, p)
    ensures Spaced([p] + s)
  {
    var r := [p] + s;
    forall i, j | 0 <= i < |r| && 0 <= j < |r| && i != j
      ensures Abs(r[i].angle - r[j].angle) > 0.1
    {
      if i == 0 {
        assert r[j] == s[j - 1] && s[j - 1] in s;
      } else if j == 0 {
        assert r[i] == s[i - 1] && s[i - 1] in s;
      } else {
        assert r[i] == s[i - 1] && r[j] == s[j - 1];
      }
    }
  }

  /** Inserting a point far from every point of a spaced sorted trace keeps it spaced. */
  lemma {:induction false} InsertSpaced(s: seq<TracePoint>, p: TracePoint)
    requires SortedByAngle(s) && Spaced(s) && FarFromAll(s, p)
    ensures Spaced(Insert(s, p))
  {
    if s == [] {
    } else if s[0].angle <= p.angle {
      TailSpaced(s);
      assert SortedByAngle(s[1..]);
      assert FarFromAll(s[1..], p);
      InsertSpaced(s[1..], p);
      HeadFarFromTail(s);
      assert FarFromAll(Insert(s[1..], p), s[0]) by {
        assert s[0] in s;
        forall q | q in Insert(s[1..], p)
          ensures Far(q, s[0].angle)
        {
          if q != p { assert q in s[1..]; }
        }
      }
      ConsSpaced(s[0], Insert(s[1..], p));
    } else {
      ConsSpaced(p, s);
    }
  }

  /** Sorting a spaced sequence gives a spaced sequence. */
  lemma {:induction false} SortSpaced(s: seq<TracePoint>)
    requires Spaced(s)
    ensures Spaced(SortByAngle(s))
  {
    if s != [] {
      var n := |s| - 1;
      var prefix := s[..n];
      assert Spaced(prefix) by {
        forall i, j | 0 <= i < n && 0 <= j < n && i != j
          ensures Abs(prefix[i].angle - prefix[j].angle) > 0.1
        {
          assert prefix[i] == s[i] && prefix[j] == s[j];
        }
      }
      SortSpaced(prefix);
      var sorted := SortByAngle(prefix);
      assert FarFromAll(sorted, s[n]) by {
        forall q | q in sorted
          ensures Far(q, s[n].angle)
        {
          assert q in multiset(prefix);
          var k :| 0 <= k < n && prefix[k] == q;
          assert s[k] == q;
        }
      }
      InsertSpaced(sorted, s[n]);
    }
  }

  /** updateTrace keeps the trace spaced: the new point is far from every kept point. */
  lemma UpdateTraceSpaced(prev: seq<TracePoint>, newAngle: real, values: TrigValues)
    requires Spaced(prev)
    ensures Spaced(UpdateTrace(prev, newAngle, values))
  {
    var kept := KeepFar(prev, newAngle);
    var p := TracePoint(newAngle, values);
    KeepFarSpaced(prev, newAngle);
    var s := kept + [p];
    forall i, j | 0 <= i < |s| && 0 <= j < |s| && i != j
      ensures Abs(s[i].angle - s[j].angle) > 0.1
    {
      if i == |kept| { assert s[j] in kept; }
      else if j == |kept| { assert s[i] in kept; }
      else { assert s[i] == kept[i] && s[j] == kept[j]; }
    }
    SortSpaced(s);
  }

  /** A sorted, spaced trace is strictly increasing. */
  lemma SortedSpacedIncreasing(s: seq<TracePoint>)
    requires SortedByAngle(s) && Spaced(s)
    ensures StrictlyIncreasing(s)
  {
  }

  /**
   * A strictly increasing sequence is determined by its elements. Since the
   * sequences updateTrace sorts never hold two points at the same angle, any
   * sort by angle, stable or not, gives the result SortByAngle gives.
   */
  lemma {:induction false} IncreasingUnique(a: seq<TracePoint>, b: seq<TracePoint>)
    requires StrictlyIncreasing(a) && StrictlyIncreasing(b) && multiset(a) == multiset(b)
    ensures a == b
  {
    assert |a| == |multiset(a)| == |multiset(b)| == |b|;
    if a != [] {
      SameHead(a, b);
      DropHead(a, b);
      IncreasingTail(a);
      IncreasingTail(b);
      IncreasingUnique(a[1..], b[1..]);
      assert a == [a[0]] + a[1..] && b == [b[0]] + b[1..];
    }
  }

  /** Two increasing sequences with the same elements start with the same element. */
  lemma SameHead(a: seq<TracePoint>, b: seq<TracePoint>)
    requires a != [] && |b| == |a|
    requires StrictlyIncreasing(a) && StrictlyIncreasing(b) && multiset(a) == multiset(b)
    ensures a[0] == b[0]
  {
    var j :| 0 <= j < |b| && b[j] == a[0] by { assert a[0] in multiset(b); }
    var i :| 0 <= i < |a| && a[i] == b[0] by { assert b[0] in multiset(a); }
    assert b[0].angle <= b[j].angle;
    assert a[0].angle <= a[i].angle;
  }

  lemma DropHead(a: seq<TracePoint>, b: seq<TracePoint>)
    requires a != [] && b != [] && a[0] == b[0] && multiset(a) == multiset(b)
    ensures multiset(a[1..]) == multiset(b[1..])
  {
    assert a == [a[0]] + a[1..];
    assert b == [b[0]] + b[1..];
    assert multiset(a) == multiset{a[0]} + multiset(a[1..]);
    assert multiset(b) == multiset{a[0]} + multiset(b[1..]);
    forall x
      ensures multiset(a[1..])[x] == multiset(b[1..])[x]
    {
      assert multiset(a)[x] == multiset(b)[x];
    }
  }

  lemma IncreasingTail(a: seq<TracePoint>)
    requires a != [] && StrictlyIncreasing(a)
    ensures StrictlyIncreasing(a[1..])
  {
    forall i, j | 0 <= i < j < |a| - 1
      ensures a[1..][i].angle < a[1..][j].angle
    {
      assert a[1..][i] == a[i + 1] && a[1..][j] == a[j + 1];
    }
  }

  /** Math.round: the nearest integer, halves rounded up. */
  function Round(x: real): (n: int)
    ensures x - 0.5 < n as real <= x + 0.5
  {
    (x + 0.5).Floor
  }

  /** The snap of handleInteraction: multiples of 15° with shift, tenths of a degree without. */
  function SnapDegrees(deg: real, shiftKey: bool): real
  {
    if shiftKey then (Round(deg / 15.0) as real) * 15.0 else (Round(deg * 10.0) as real) / 10.0
  }

  /** With shift the snapped angle is a multiple of 15 within 7.5° of the input. */
  lemma ShiftSnapsTo15(deg: real) returns (k: int)
    ensures SnapDegrees(deg, true) == 15.0 * (k as real)
    ensures Abs(SnapDegrees(deg, true) - deg) <= 7.5
  {
    k := Round(deg / 15.0);
    assert deg / 15.0 - 0.5 < k as real <= deg / 15.0 + 0.5;
    assert deg - 7.5 < 15.0 * (k as real) <= deg + 7.5;
  }

  /** Without shift the snapped angle is a whole number of tenths within 0.05° of the input. */
  lemma FreeSnapsToTenths(deg: real) returns (k: int)
    ensures SnapDegrees(deg, false) == (k as real) / 10.0
    ensures Abs(SnapDegrees(deg, false) - deg) <= 0.05
  {
    k := Round(deg * 10.0);
    assert deg * 10.0 - 0.5 < k as real <= deg * 10.0 + 0.5;
  }

  /** The angle handleInteraction stores for a cursor direction `rad` (the atan2 result). */
  function InteractionAngle(rad: real, shiftKey: bool): real
  {
    NormalizeAngle(SnapDegrees(ToDeg(WrapTurn(rad)), shiftKey))
  }

  /** atan2's result moved into [0, 2π): a negative direction gains a full turn. */
  function WrapTurn(rad: real): real
  {
    if rad < 0.0 then rad + PI * 2.0 else rad
  }

  /**
   * The stored angle lies in [0, 360) and keeps the snap: a multiple of 15°
   * with shift, a whole number of tenths without; a snap to 360° is stored as 0.
   */
  lemma InteractionAngleSnapped(rad: real, shiftKey: bool) returns (k: int)
    ensures var a := InteractionAngle(rad, shiftKey);
      0.0 <= a < 360.0
      && (shiftKey ==> a == 15.0 * (k as real))
      && (!shiftKey ==> a == (k as real) / 10.0)
  {
    var deg := ToDeg(WrapTurn(rad));
    var turns := NormalizeAngleTurns(SnapDegrees(deg, shiftKey));
    if shiftKey {
      var m := ShiftSnapsTo15(deg);
      k := m + 24 * turns;
    } else {
      var m := FreeSnapsToTenths(deg);
      k := m + 3600 * turns;
    }
  }

  /** A snap that lands on a full turn is stored as 0°. */
  lemma FullTurnStoredAsZero()
    ensures NormalizeAngle(360.0) == 0.0
  {
    assert Trunc(360.0 / 360.0) == 1;
  }

  /**
   * The page state: the angle (initially 58°) and the trace (initially empty).
   * The trace is always sorted and spaced, hence strictly increasing in angle.
   */
  class UnitCircleView {
    var angle: real
    var trace: seq<TracePoint>

    predicate Valid()
      reads this
    {
      SortedByAngle(trace) && Spaced(trace)
    }

    constructor ()
      ensures Valid()
      ensures angle == 58.0 && trace == []
    {
      angle := 58.0;
      trace := [];
    }

    /** updateTrace: records the point for `newAngle` in the trace. */
    method AddToTrace(newAngle: real, values: TrigValues)
      requires Valid()
      modifies this`trace
      ensures Valid()
      ensures trace == UpdateTrace(old(trace), newAngle, values)
    {
      UpdateTraceSpaced(trace, newAngle, values);
      trace := UpdateTrace(trace, newAngle, values);
    }

    /**
     * handleInteraction after the cursor has been turned into the direction
     * `rad` = atan2(-dy, dx); `trigAt` stands for the Math calls that give the
     * six values at an angle in degrees.
     */
    method HandleInteraction(rad: real, shiftKey: bool, trigAt: real -> TrigValues)
      requires Valid()
      modifies this`angle, this`trace
      ensures Valid()
      ensures angle == InteractionAngle(rad, shiftKey)
      ensures trace == UpdateTrace(old(trace), angle, trigAt(angle))
    {
      var newRad := rad;
      if newRad < 0.0 {
        newRad := newRad + PI * 2.0;
      }
      assert newRad == WrapTurn(rad);
      var newDeg := ToDeg(newRad);
      if shiftKey {
        newDeg := (Round(newDeg / 15.0) as real) * 15.0;
      } else {
        newDeg := (Round(newDeg * 10.0) as real) / 10.0;
      }
      assert newDeg == SnapDegrees(ToDeg(newRad), shiftKey);
      var normDeg := NormalizeAngle(newDeg);
      angle := normDeg;
      AddToTrace(normDeg, trigAt(normDeg));
    }

    /** handleSliderChange: the slider value is stored as it is, without snapping or normalising. */
    method SliderChange(val: real, trigAt: real -> TrigValues)
      requires Valid()
      modifies this`angle, this`trace
      ensures Valid()
      ensures angle == val
      ensures trace == UpdateTrace(old(trace), val, trigAt(val))
    {
      angle := val;
      AddToTrace(val, trigAt(val));
    }

    /** The graphs' Reset button empties the trace. */
    method ResetTrace()
      modifies this`trace
      ensures Valid()
      ensures trace == []
    {
      trace := [];
    }
  }
}
