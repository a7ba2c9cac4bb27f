/**
 * The spinning wheel: its partition into equal coloured segments, the angle a
 * spin is drawn to, and the option the fixed pointer lands on when it stops.
 * Angles are exact reals in degrees.
 */
module Wheel {
  import opened Optional

  /** Degrees in one full turn (`ANGLE_BY_SEGMENT`). */
  const FullTurn: real := 360.0

  /** The number of palette colours. */
  const PaletteSize: nat := 12

  /** The colour palette, in the order segments use it. */
  const Colors: seq<string> := [
    "#FF6384", "#36A2EB", "#FFCE56", "#4BC0C0", "#9966FF", "#FF9F40",
    "#8AC926", "#1982C4", "#6A4C93", "#F15BB5", "#00BBF9", "#00F5D4"
  ]

  /** Labels longer than this are cut for display. */
  const MaxLabel: nat := 10

  // ---------------------------------------------------------------------
  // Real arithmetic helpers

  /** `d` is a whole number of full turns. */
  predicate IsWholeTurns(d: real) {
    (d / FullTurn).Floor as real * FullTurn == d
  }

  lemma MulLe(u: real, v: real, s: real)
    requires 0.0 < s && u <= v
    ensures u * s <= v * s
  {}

  lemma MulLt(u: real, v: real, s: real)
    requires 0.0 < s && u < v
    ensures u * s < v * s
  {}

  lemma CancelLe(u: real, v: real, s: real)
    requires 0.0 < s && u * s <= v * s
    ensures u <= v
  {}

  lemma CancelLt(u: real, v: real, s: real)
    requires 0.0 < s && u * s < v * s
    ensures u < v
  {}

  lemma Distribute(i: int, s: real)
    ensures i as real * s + s == (i + 1) as real * s
  {}

  /** `x` lies in band `i` of width `s` exactly when `x / s` floors to `i`. */
  lemma QuotientInBand(x: real, s: real, i: int)
    requires 0.0 < s
    requires i as real * s <= x < (i + 1) as real * s
    ensures (x / s).Floor == i
  {
    var q := x / s;
    assert q * s == x;
    CancelLe(i as real, q, s);
    CancelLt(q, (i + 1) as real, s);
  }

  /** A number lies between its floor and the next integer; so does its product with a positive width. */
  lemma FloorBand(q: real, s: real, j: int)
    requires 0.0 < s && j == q.Floor
    ensures j as real * s <= q * s
    ensures q * s < (j + 1) as real * s
  {
    MulLe(j as real, q, s);
    MulLt(q, (j + 1) as real, s);
  }

  /** The band that `Floor(x / s)` names contains `x`. */
  lemma WinnerBand(x: real, s: real, j: int)
    requires 0.0 < s && j == (x / s).Floor
    ensures j as real * s <= x
    ensures x < (j + 1) as real * s
  {
    var q := x / s;
    FloorBand(q, s, j);
    assert q * s == x;
  }

  /** A quotient of a value in `[0, n*s)` by `s` lies in `[0, n)`. */
  lemma QuotientBelow(x: real, s: real, n: nat)
    requires 0.0 < s && 0.0 <= x < n as real * s
    ensures 0.0 <= x / s < n as real
  {
    var q := x / s;
    assert q * s == x;
    CancelLe(0.0, q, s);
    CancelLt(q, n as real, s);
  }

  // ---------------------------------------------------------------------
  // Geometry

  /** `segmentAngle = 360 / N`: the width of each of the N segments. */
  function SegmentAngle(n: nat): (s: real)
    requires n >= 1
    ensures 0.0 < s <= FullTurn
  {
    FullTurn / n as real
  }

  /** N segments of `360 / N` degrees fill exactly one turn. */
  lemma SegmentsFillTurn(n: nat)
    requires n >= 1
    ensures n as real * SegmentAngle(n) == FullTurn
  {
  }

  /** One wheel segment: its option, its start angle and its colour. */
  datatype Segment = Segment(option: string, angle: real, color: string)

  /** The angle at which a segment of a wheel with `n` options ends. */
  function SegmentEnd(seg: Segment, n: nat): real
    requires n >= 1
  {
    seg.angle + SegmentAngle(n)
  }

  /**
   * `createWheel`: one segment per option, in list order, segment `i` starting
   * at `i * 360 / N` and coloured from the palette cyclically; no segments for
   * an empty list.
   */
  function Partition(options: seq<string>): (segments: seq<Segment>)
    ensures |segments| == |options|
    ensures forall i :: 0 <= i < |segments| ==> segments[i].option == options[i]
  {
    if |options| == 0 then []
    else
      var s := SegmentAngle(|options|);
      seq(|options|, i requires 0 <= i < |options| =>
        Segment(options[i], i as real * s, Colors[i % PaletteSize]))
  }

  /** Segment `i` takes palette colour `i mod 12`. */
  lemma PartitionColor(options: seq<string>, i: int)
    requires 0 <= i < |options|
    ensures Partition(options)[i].color == Colors[i % PaletteSize]
  {
  }

  /** Segment `i` starts at `i * 360 / N`. */
  lemma PartitionAngle(options: seq<string>, i: int)
    requires 0 <= i < |options|
    ensures Partition(options)[i].angle == i as real * SegmentAngle(|options|)
  {
    var s := SegmentAngle(|options|);
    assert Partition(options)[i] == Segment(options[i], i as real * s, Colors[i % PaletteSize]);
  }

  /**
   * The segments partition the circle: the first starts at 0, each ends where
   * the next starts, and the last ends at 360.
   */
  lemma PartitionGeometry(options: seq<string>)
    requires |options| >= 1
    ensures Partition(options)[0].angle == 0.0
    ensures forall i :: 0 <= i < |options| - 1 ==>
              SegmentEnd(Partition(options)[i], |options|) == Partition(options)[i + 1].angle
    ensures SegmentEnd(Partition(options)[|options| - 1], |options|) == FullTurn
  {
    var n := |options|;
    PartitionAngle(options, 0);
    forall i | 0 <= i < n - 1
      ensures SegmentEnd(Partition(options)[i], n) == Partition(options)[i + 1].angle
    {
      PartitionStep(options, i);
    }
    PartitionEnd(options, n - 1);
    SegmentsFillTurn(n);
  }

  /** Segment `i` ends at `(i + 1) * 360 / N`. */
  lemma PartitionEnd(options: seq<string>, i: int)
    requires 0 <= i < |options|
    ensures SegmentEnd(Partition(options)[i], |options|) == (i + 1) as real * SegmentAngle(|options|)
  {
    PartitionAngle(options, i);
    Distribute(i, SegmentAngle(|options|));
  }

  lemma PartitionStep(options: seq<string>, i: int)
    requires 0 <= i < |options| - 1
    ensures SegmentEnd(Partition(options)[i], |options|) == Partition(options)[i + 1].angle
  {
    PartitionEnd(options, i);
    PartitionAngle(options, i + 1);
  }

  /** Every normalized angle lies in exactly one segment: the one `Floor(x / segmentAngle)` names. */
  lemma PartitionCovers(options: seq<string>, x: real, i: int)
    requires |options| >= 1 && 0.0 <= x < FullTurn && 0 <= i < |options|
    ensures Partition(options)[i].angle <= x < SegmentEnd(Partition(options)[i], |options|)
            <==> i == (x / SegmentAngle(|options|)).Floor
  {
    var s := SegmentAngle(|options|);
    PartitionAngle(options, i);
    PartitionEnd(options, i);
    var lo, hi := i as real * s, (i + 1) as real * s;
    assert Partition(options)[i].angle == lo;
    assert SegmentEnd(Partition(options)[i], |options|) == hi;
    BandIff(x, s, i);
  }

  /** `x` lies in band `i` of width `s` if and only if `Floor(x / s) == i`. */
  lemma BandIff(x: real, s: real, i: int)
    requires 0.0 < s
    ensures i as real * s <= x < (i + 1) as real * s <==> i == (x / s).Floor
  {
    if i == (x / s).Floor {
      WinnerBand(x, s, i);
    }
    if i as real * s <= x < (i + 1) as real * s {
      QuotientInBand(x, s, i);
    }
  }

  /** Segment colours repeat only after a full palette: segments fewer than 12 apart differ in colour. */
  lemma PartitionColorsDistinct(options: seq<string>, i: int, j: int)
    requires 0 <= i < j < |options| && j - i < PaletteSize
    ensures Partition(options)[i].color != Partition(options)[j].color
  {
    PartitionColor(options, i);
    PartitionColor(options, j);
    PaletteDistinct(i % PaletteSize, j % PaletteSize);
  }

  /** The twelve palette colours are pairwise different. */
  lemma PaletteDistinct(a: int, b: int)
    requires 0 <= a < PaletteSize && 0 <= b < PaletteSize && a != b
    ensures Colors[a] != Colors[b]
  {
  }

  /** `largeArcFlag`: whether a segment's arc exceeds half a turn, which happens only for a one-option wheel. */
  function LargeArcFlag(n: nat): (flag: int)
    requires n >= 1
    ensures flag == 0 || flag == 1
    ensures flag == 1 <==> n == 1
  {
    var s := SegmentAngle(n);
    assert n >= 2 ==> s <= 180.0 by {
      if n >= 2 {
        MulLe(2.0, n as real, s);
      }
    }
    if s > 180.0 then 1 else 0
  }

  /** The text drawn on a segment: at most 10 characters kept, with "..." added when cut. */
  function Label(option: string): (shown: string)
    ensures |shown| <= MaxLabel + 3
    ensures |option| <= MaxLabel ==> shown == option
    ensures |option| > MaxLabel ==>
              |shown| == MaxLabel + 3 && shown[..MaxLabel] == option[..MaxLabel] && shown[MaxLabel..] == "..."
  {
    if |option| > MaxLabel then option[..MaxLabel] + "..." else option
  }

  // ---------------------------------------------------------------------
  // Resolution

  /** `targetAngle`: at least three full turns, plus up to four more, plus a sub-turn offset. */
  function TargetAngle(r1: real, r2: real): (t: real)
    requires 0.0 <= r1 < 1.0 && 0.0 <= r2 < 1.0
    ensures 3.0 * FullTurn <= t < 8.0 * FullTurn
  {
    1080.0 + 1440.0 * r1 + r2 * 360.0
  }

  /** `targetAngle % 360` for a non-negative angle: the angle within one turn. */
  function Normalize(a: real): (r: real)
    requires 0.0 <= a
    ensures 0.0 <= r < FullTurn
    ensures IsWholeTurns(a - r)
  {
    var k := (a / FullTurn).Floor;
    var r := a - k as real * FullTurn;
    assert (a - r) / FullTurn == k as real;
    r
  }

  /** `selectedIndex = Math.floor(normalizedAngle / segmentSize)`: always a valid segment index, without a clamp. */
  function WinnerIndex(n: nat, a: real): (idx: int)
    requires n >= 1 && 0.0 <= a
    ensures 0 <= idx < n
  {
    var x := Normalize(a);
    var s := SegmentAngle(n);
    QuotientBelow(x, s, n);
    (x / s).Floor
  }

  /**
   * The option under the pointer once the wheel stops at angle `a`, counted
   * from the END of the list; `None` (JavaScript `undefined`) for an empty list.
   */
  function Resolve(options: seq<string>, a: real): (r: Option<string>)
    requires 0.0 <= a
    ensures r.Some? <==> |options| > 0
    ensures r.Some? ==> r.value in options
  {
    if |options| == 0 then None
    else Some(options[|options| - 1 - WinnerIndex(|options|, a)])
  }

  /** Adding whole turns does not move the angle within a turn. */
  lemma NormalizePeriodic(a: real, k: int)
    requires 0.0 <= a && 0.0 <= a + k as real * FullTurn
    ensures Normalize(a + k as real * FullTurn) == Normalize(a)
  {
    var b := a + k as real * FullTurn;
    var f := (a / FullTurn).Floor;
    assert b / FullTurn == a / FullTurn + k as real;
    assert (b / FullTurn).Floor == f + k;
  }

  /** Resolution is periodic: angles a whole number of turns apart select the same option. */
  lemma ResolvePeriodic(options: seq<string>, a: real, k: int)
    requires 0.0 <= a && 0.0 <= a + k as real * FullTurn
    ensures Resolve(options, a + k as real * FullTurn) == Resolve(options, a)
  {
    NormalizePeriodic(a, k);
  }

  /**
   * The reversal contract: a wheel stopped with its normalized angle inside
   * segment `i` of the partition selects option `N - 1 - i`.
   */
  lemma ResolveInSegment(options: seq<string>, a: real, i: int)
    requires 0.0 <= a && 0 <= i < |options|
    requires Partition(options)[i].angle <= Normalize(a) < SegmentEnd(Partition(options)[i], |options|)
    ensures Resolve(options, a) == Some(options[|options| - 1 - i])
  {
    PartitionCovers(options, Normalize(a), i);
  }

  /** The first segment's arc selects the last option and the last segment's arc selects the first. */
  lemma ResolveReversedEnds(options: seq<string>, a: real)
    requires 0.0 <= a && |options| >= 1
    ensures Normalize(a) < SegmentAngle(|options|) ==> Resolve(options, a) == Some(options[|options| - 1])
    ensures Normalize(a) >= FullTurn - SegmentAngle(|options|) ==> Resolve(options, a) == Some(options[0])
  {
    var n := |options|;
    var s := SegmentAngle(n);
    PartitionGeometry(options);
    if Normalize(a) < s {
      ResolveInSegment(options, a, 0);
    }
    if Normalize(a) >= FullTurn - s {
      assert Partition(options)[n - 1].angle == FullTurn - s;
      ResolveInSegment(options, a, n - 1);
    }
  }

  /** A four-option wheel of 90-degree segments, resolved at 45, 135 and 359 degrees. */
  lemma FourOptionExample()
    ensures Resolve(["Pizza", "Rice", "Noodles", "Burger"], 45.0) == Some("Burger")
    ensures Resolve(["Pizza", "Rice", "Noodles", "Burger"], 135.0) == Some("Noodles")
    ensures Resolve(["Pizza", "Rice", "Noodles", "Burger"], 359.0) == Some("Pizza")
  {
    var opts := ["Pizza", "Rice", "Noodles", "Burger"];
    QuotientInBand(45.0, 90.0, 0);
    QuotientInBand(135.0, 90.0, 1);
    QuotientInBand(359.0, 90.0, 3);
  }

  // ---------------------------------------------------------------------
  // The spin

  /**
   * The wheel component's own mutable state: the `angle` ref, the rotation
   * the animated value rests at, and the option list that the completion
   * callback of the running animation closed over.
   */
  class SpinningWheel {
    var angle: real
    var rotation: real
    var captured: seq<string>
    var animating: bool

    ghost predicate Valid()
      reads this
    {
      0.0 <= angle && (animating ==> 3.0 * FullTurn <= angle)
    }

    constructor ()
      ensures Valid()
      ensures angle == 0.0 && rotation == 0.0 && captured == [] && !animating
    {
      angle, rotation, captured, animating := 0.0, 0.0, [], false;
    }

    /**
     * The effect that reruns whenever `spinning` changes. When it becomes true
     * it draws the target angle from the two random numbers, stores it in the
     * ref and starts the animation, whose callback captures `options` as they
     * are now; when it becomes false nothing happens.
     */
    method SpinningChanged(options: seq<string>, spinning: bool, r1: real, r2: real)
      requires Valid()
      requires 0.0 <= r1 < 1.0 && 0.0 <= r2 < 1.0
      requires spinning ==> !animating
      modifies this
      ensures Valid()
      ensures spinning ==> angle == TargetAngle(r1, r2) && captured == options && animating
      ensures !spinning ==> angle == old(angle) && captured == old(captured) && animating == old(animating)
      ensures rotation == old(rotation)
    {
      if spinning {
        angle := TargetAngle(r1, r2);
        captured := options;
        animating := true;
      }
    }

    /**
     * The animation's completion callback: the wheel rests at the target
     * angle, and the winner is resolved from the options captured when the
     * spin started, whatever the options are now.
     */
    method AnimationFinished() returns (selected: Option<string>)
      requires Valid() && animating
      modifies this
      ensures Valid()
      ensures !animating && rotation == angle
      ensures angle == old(angle) && captured == old(captured)
      ensures selected == Resolve(captured, angle)
      ensures |captured| > 0 ==> selected.Some? && selected.value in captured
    {
      rotation := angle;
      animating := false;
      selected := Resolve(captured, angle);
    }
  }
}
