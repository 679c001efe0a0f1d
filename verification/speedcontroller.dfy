/**
 * The speed slider: a list of snap points (position on the slider, speed value,
 * label), built from the boid count N by arithmetic right shifts, cleaned of
 * position clashes, and read by `play`, `pause` and each animation frame to
 * set `speed`, the number of boid updates the field performs per frame.
 */
module SpeedControl {
  import opened JsNumbers

  datatype SnapPoint = SnapPoint(position: real, value: real, caption: string)

  /** Slider margin plus handle padding: the x coordinate of the slider's left end. */
  const Inset: int := 18

  /** The decimal digits of a natural number, as `Number.prototype.toString` prints them. */
  function NatToString(n: nat): (s: string)
    ensures |s| >= 1
    ensures forall i :: 0 <= i < |s| ==> '0' <= s[i] <= '9'
  {
    if n < 10 then ["0123456789"[n]] else NatToString(n / 10) + ["0123456789"[n % 10]]
  }

  /** The label of the `k`-th tick: "1x", "1/2x", "1/4x", ... */
  function TickLabel(k: nat): string
  {
    if k == 0 then "1x" else "1/" + NatToString(Pow2(k)) + "x"
  }

  /** The label assembled from the optional "/2^k" part is `TickLabel`. */
  lemma TickLabelSpelled(k: nat, d: string)
    requires d == if k > 0 then "/" + NatToString(Pow2(k)) else ""
    ensures "1" + d + "x" == TickLabel(k)
  {
    if k > 0 {
      SlashSpelled(NatToString(Pow2(k)));
    }
  }

  lemma SlashSpelled(s: string)
    ensures "1" + ("/" + s) + "x" == "1/" + s + "x"
  {
    assert "1" + ("/" + s) == "1/" + s;
  }

  /** How many ticks the slider gets for the int32 value `a` of N. */
  function TickCount(a: int): nat
  {
    if a > 0 then BitLength(a) else 0
  }

  /** The `k`-th tick for slider width `width` and int32 boid count `a`. */
  function Tick(width: int, a: int, k: nat): SnapPoint
  {
    var sliderWidth := (width - 2 * Inset) as real;
    SnapPoint((Inset + Shr(ToInt32(sliderWidth * 3.0 / 5.0), k)) as real, Shr(a, k) as real, TickLabel(k))
  }

  /** Ticks 0 .. m-1, in the order they are pushed. */
  function TicksUpTo(width: int, a: int, m: nat): (ts: seq<SnapPoint>)
    ensures |ts| == m
    ensures forall k :: 0 <= k < m ==> ts[k] == Tick(width, a, k)
  {
    if m == 0 then [] else TicksUpTo(width, a, m - 1) + [Tick(width, a, m - 1)]
  }

  /** The 'Max' and '2x' points that open the list. */
  function Head(width: int, n: real): seq<SnapPoint>
  {
    var sliderWidth := (width - 2 * Inset) as real;
    [SnapPoint((width - Inset) as real, -1.0, "Max"),
     SnapPoint(sliderWidth * 9.0 / 10.0 + Inset as real, n * 2.0, "2x")]
  }

  const PausedPoint: SnapPoint := SnapPoint(Inset as real, 0.0, "Paused")

  /** The snap points as built for slider width `width` and boid count `n`, before clashes are resolved. */
  function SnapPointsFor(width: int, n: real): seq<SnapPoint>
  {
    Head(width, n) + TicksUpTo(width, ToInt32(n), TickCount(ToInt32(n))) + [PausedPoint]
  }

  /** The shift loop runs exactly while `k` is below the tick count. */
  lemma ShrPositive(a: int, k: nat)
    requires -Two31 <= a < Two31
    requires k <= TickCount(a)
    ensures Shr(a, k) > 0 <==> k < TickCount(a)
  {
    if a > 0 {
      Int32BitLength(a);
      assert k % 32 == k;
      HalvePositive(a, k);
    } else {
      assert k == 0;
    }
  }

  /** Shifting a positive number by one less than its bit length leaves 1. */
  lemma {:induction false} HalveToLast(a: nat)
    requires a >= 1
    ensures Halve(a, BitLength(a) - 1) == 1
  {
    if a >= 2 {
      HalveToLast(a / 2);
    }
  }

  /**
   * The built list: 'Max' (value -1, right end), '2x' (value 2N), one tick per bit of
   * N with value N >> k, and 'Paused' (value 0, left end); 3 + bit-length(N) points.
   */
  lemma SnapPointsShape(width: int, n: real)
    ensures var sp := SnapPointsFor(width, n); var a := ToInt32(n);
      |sp| == 3 + TickCount(a) &&
      sp[0] == SnapPoint((width - Inset) as real, -1.0, "Max") &&
      sp[1].value == 2.0 * n && sp[1].caption == "2x" &&
      sp[|sp| - 1] == SnapPoint(Inset as real, 0.0, "Paused") &&
      (forall k :: 0 <= k < TickCount(a) ==> sp[2 + k] == Tick(width, a, k))
  {
  }

  /** For N >= 1 the tick values strictly decrease and end at 1; for N <= 0 there are none. */
  lemma {:induction false} TickValues(width: int, n: real, k: nat)
    requires k < TickCount(ToInt32(n))
    ensures var a := ToInt32(n);
      a >= 1 &&
      Tick(width, a, k).value >= 1.0 &&
      (k + 1 < TickCount(a) ==> Tick(width, a, k + 1).value < Tick(width, a, k).value) &&
      (k + 1 == TickCount(a) ==> Tick(width, a, k).value == 1.0)
  {
    var a := ToInt32(n);
    Int32BitLength(a);
    assert k % 32 == k;
    HalvePositive(a, k);
    if k + 1 < TickCount(a) {
      assert (k + 1) % 32 == k + 1;
      HalveStep(a, k);
    } else {
      HalveToLast(a);
    }
  }

  /** The third point, which `play` selects, has value N for N >= 1 and is 'Paused' (value 0) otherwise. */
  lemma PlayValue(width: int, n: real)
    ensures var sp := SnapPointsFor(width, n); var a := ToInt32(n);
      |sp| >= 3 && sp[2].value == (if a >= 1 then a as real else 0.0)
  {
  }

  /** Points `i` and `j` share a position but have different values. */
  predicate Conflicting(sp: seq<SnapPoint>, i: int, j: int)
  {
    0 <= i < |sp| && 0 <= j < |sp| &&
    sp[i].position == sp[j].position && sp[i].value != sp[j].value
  }

  predicate HasConflict(sp: seq<SnapPoint>)
  {
    exists i, j :: 0 <= i < |sp| && 0 <= j < |sp| && Conflicting(sp, i, j)
  }

  /** `b` is `a` with some positions moved right: same length, order, values and captions. */
  predicate Moved(a: seq<SnapPoint>, b: seq<SnapPoint>)
  {
    |a| == |b| &&
    forall k :: 0 <= k < |a| ==>
      b[k].value == a[k].value && b[k].caption == a[k].caption && b[k].position >= a[k].position
  }

  lemma MovedTransitive(a: seq<SnapPoint>, b: seq<SnapPoint>, c: seq<SnapPoint>)
    requires Moved(a, b) && Moved(b, c)
    ensures Moved(a, c)
  {
  }

  /**
   * One comparison of the resolution pass: when points `i` and `j` share a
   * position and differ in value, the greater-valued one moves right by 1.
   */
  function ResolvePair(sp: seq<SnapPoint>, i: nat, j: nat): (r: seq<SnapPoint>)
    requires i < |sp| && j < |sp|
    ensures |r| == |sp|
  {
    if sp[i].position == sp[j].position && sp[i].value != sp[j].value then
      (if sp[i].value > sp[j].value then sp[i := sp[i].(position := sp[i].position + 1.0)]
       else sp[j := sp[j].(position := sp[j].position + 1.0)])
    else sp
  }

  /** The comparisons of point `i` with points `j` onwards, each on the list the previous one left. */
  function ResolveRow(sp: seq<SnapPoint>, i: nat, j: nat): (r: seq<SnapPoint>)
    requires i < |sp| && j <= |sp|
    ensures |r| == |sp|
    decreases |sp| - j
  {
    if j == |sp| then sp else ResolveRow(ResolvePair(sp, i, j), i, j + 1)
  }

  /** The rows of points `i` onwards. */
  function ResolveFrom(sp: seq<SnapPoint>, i: nat): (r: seq<SnapPoint>)
    requires i <= |sp|
    ensures |r| == |sp|
    decreases |sp| - i
  {
    if i == |sp| then sp else ResolveFrom(ResolveRow(sp, i, 0), i + 1)
  }

  /** One resolution pass: every ordered pair, row by row, on the list as it is being changed. */
  function ResolvePass(sp: seq<SnapPoint>): (r: seq<SnapPoint>)
    ensures |r| == |sp|
  {
    ResolveFrom(sp, 0)
  }

  /** A comparison only moves a point right. */
  lemma ResolvePairMoved(sp: seq<SnapPoint>, i: nat, j: nat)
    requires i < |sp| && j < |sp|
    ensures Moved(sp, ResolvePair(sp, i, j))
  {
  }

  /** A comparison of a pair that does not clash changes nothing. */
  lemma ResolvePairQuiet(sp: seq<SnapPoint>, i: nat, j: nat)
    requires i < |sp| && j < |sp| && !Conflicting(sp, i, j)
    ensures ResolvePair(sp, i, j) == sp
  {
  }

  lemma {:induction false} ResolveRowMoved(sp: seq<SnapPoint>, i: nat, j: nat)
    requires i < |sp| && j <= |sp|
    ensures Moved(sp, ResolveRow(sp, i, j))
    decreases |sp| - j
  {
    if j < |sp| {
      var sp' := ResolvePair(sp, i, j);
      ResolvePairMoved(sp, i, j);
      ResolveRowMoved(sp', i, j + 1);
      MovedTransitive(sp, sp', ResolveRow(sp', i, j + 1));
    }
  }

  lemma {:induction false} ResolveFromMoved(sp: seq<SnapPoint>, i: nat)
    requires i <= |sp|
    ensures Moved(sp, ResolveFrom(sp, i))
    decreases |sp| - i
  {
    if i < |sp| {
      var sp' := ResolveRow(sp, i, 0);
      ResolveRowMoved(sp, i, 0);
      ResolveFromMoved(sp', i + 1);
      MovedTransitive(sp, sp', ResolveFrom(sp', i + 1));
    }
  }

  /** A pass keeps the length, order, values and captions, and only moves points right. */
  lemma ResolvePassMoved(sp: seq<SnapPoint>)
    ensures Moved(sp, ResolvePass(sp))
  {
    ResolveFromMoved(sp, 0);
  }

  lemma {:induction false} ResolveRowQuiet(sp: seq<SnapPoint>, i: nat, j: nat)
    requires i < |sp| && j <= |sp| && !HasConflict(sp)
    ensures ResolveRow(sp, i, j) == sp
    decreases |sp| - j
  {
    if j < |sp| {
      ResolvePairQuiet(sp, i, j);
      ResolveRowQuiet(sp, i, j + 1);
    }
  }

  lemma {:induction false} ResolveFromQuiet(sp: seq<SnapPoint>, i: nat)
    requires i <= |sp| && !HasConflict(sp)
    ensures ResolveFrom(sp, i) == sp
    decreases |sp| - i
  {
    if i < |sp| {
      ResolveRowQuiet(sp, i, 0);
      ResolveFromQuiet(sp, i + 1);
    }
  }

  /** A pass over a list without clashes changes nothing. */
  lemma ResolvePassSettled(sp: seq<SnapPoint>)
    requires !HasConflict(sp)
    ensures ResolvePass(sp) == sp
  {
    ResolveFromQuiet(sp, 0);
  }

  /** The list after `k` resolution passes. */
  function Passes(sp: seq<SnapPoint>, k: nat): (r: seq<SnapPoint>)
    ensures |r| == |sp|
  {
    if k == 0 then sp else ResolvePass(Passes(sp, k - 1))
  }

  /** Once a pass finds no clash, further passes change nothing: stopping early or not gives the same list. */
  lemma {:induction false} PassesSettled(sp: seq<SnapPoint>, a: nat, b: nat)
    requires a <= b && !HasConflict(Passes(sp, a))
    ensures Passes(sp, b) == Passes(sp, a)
    decreases b
  {
    if b > a {
      PassesSettled(sp, a, b - 1);
      ResolvePassSettled(Passes(sp, a));
    }
  }

  /** Any number of passes only moves points right. */
  lemma {:induction false} PassesMoved(sp: seq<SnapPoint>, k: nat)
    ensures Moved(sp, Passes(sp, k))
    decreases k
  {
    if k > 0 {
      PassesMoved(sp, k - 1);
      ResolvePassMoved(Passes(sp, k - 1));
      MovedTransitive(sp, Passes(sp, k - 1), Passes(sp, k));
    }
  }

  /**
   * The snap points for boid count `n` once clashes are resolved: the built list
   * after 401 passes, the most `updateSnapPoints` makes; it stops earlier only
   * after a pass that finds no clash, when further passes would change nothing.
   */
  function SettledSnapPoints(width: int, n: real): (sp: seq<SnapPoint>)
    ensures Moved(SnapPointsFor(width, n), sp)
  {
    PassesMoved(SnapPointsFor(width, n), 401);
    Passes(SnapPointsFor(width, n), 401)
  }

  /** The distance from the handle to a snap point. */
  function Dist(h: real, p: SnapPoint): (d: real)
    ensures d >= 0.0
    ensures d == h - p.position || d == p.position - h
  {
    if h >= p.position then h - p.position else p.position - h
  }

  /** Point `k` is nearest to `h`, and no earlier point is as near. */
  predicate IsNearest(sp: seq<SnapPoint>, h: real, k: int)
  {
    0 <= k < |sp| &&
    (forall j :: 0 <= j < |sp| ==> Dist(h, sp[k]) <= Dist(h, sp[j])) &&
    (forall j :: 0 <= j < k ==> Dist(h, sp[k]) < Dist(h, sp[j]))
  }

  /** The scan of a frame: keep the current best unless a later point is strictly nearer. */
  function NearestFrom(sp: seq<SnapPoint>, h: real, i: nat, best: nat): (k: nat)
    requires best < |sp| && i <= |sp|
    decreases |sp| - i
    ensures k < |sp|
  {
    if i == |sp| then best
    else NearestFrom(sp, h, i + 1, if Dist(h, sp[i]) < Dist(h, sp[best]) then i else best)
  }

  /** The snap point a frame selects for handle position `h`; the scan starts from point 0. */
  function Nearest(sp: seq<SnapPoint>, h: real): (k: nat)
    requires |sp| > 0
    ensures k < |sp|
  {
    NearestFrom(sp, h, 0, 0)
  }

  lemma {:induction false} NearestFromIsNearest(sp: seq<SnapPoint>, h: real, i: nat, best: nat)
    requires best < |sp| && i <= |sp| && (best < i || best == 0)
    requires forall j :: 0 <= j < i ==> Dist(h, sp[best]) <= Dist(h, sp[j])
    requires forall j :: 0 <= j < best ==> Dist(h, sp[best]) < Dist(h, sp[j])
    ensures IsNearest(sp, h, NearestFrom(sp, h, i, best))
    decreases |sp| - i
  {
    if i < |sp| {
      var next := if Dist(h, sp[i]) < Dist(h, sp[best]) then i else best;
      NearestFromIsNearest(sp, h, i + 1, next);
    }
  }

  /** A frame selects the nearest point, with ties going to the earliest point in the list. */
  lemma NearestIsNearest(sp: seq<SnapPoint>, h: real)
    requires |sp| > 0
    ensures IsNearest(sp, h, Nearest(sp, h))
  {
    NearestFromIsNearest(sp, h, 0, 0);
  }

  /** There is only one nearest-and-earliest point. */
  lemma NearestUnique(sp: seq<SnapPoint>, h: real, k1: int, k2: int)
    requires IsNearest(sp, h, k1) && IsNearest(sp, h, k2)
    ensures k1 == k2
  {
    assert Dist(h, sp[k1]) == Dist(h, sp[k2]);
  }

  /** p5's `constrain`. */
  function Constrain(x: real, lo: real, hi: real): real
  {
    if x < lo then lo else if x > hi then hi else x
  }

  /** Whether the mouse is held down inside the slider's canvas. */
  predicate Dragging(mousePressed: bool, mouseX: real, mouseY: real, width: int, height: int)
  {
    mousePressed && 0.0 <= mouseX <= width as real && 0.0 <= mouseY <= height as real
  }

  class SpeedController {
    const width: int
    const height: int
    var speed: real
    var handlePosition: real
    var snapPoints: seq<SnapPoint>

    predicate Valid()
      reads this
    {
      |snapPoints| >= 3
    }

    /** Builds the snap points for boid count `n` and starts paused. */
    constructor (width: int, height: int, n: real)
      ensures this.width == width && this.height == height
      ensures Valid() && snapPoints == SettledSnapPoints(width, n)
      ensures Moved(SnapPointsFor(width, n), snapPoints)
      ensures handlePosition == snapPoints[|snapPoints| - 1].position
      ensures speed == snapPoints[|snapPoints| - 1].position
    {
      this.width := width;
      this.height := height;
      new;
      ghost var rounds, settled := UpdateSnapPoints(n);
      Pause();
    }

    /** Selects the third point, the default 'play' speed. */
    method Play()
      requires Valid()
      modifies this`handlePosition, this`speed
      ensures handlePosition == snapPoints[2].position
      ensures speed == snapPoints[2].value
    {
      handlePosition := snapPoints[2].position;
      speed := snapPoints[2].value;
    }

    /** The speed is the last point's position, where `Pause` leaves it. */
    predicate Paused()
      reads this
    {
      |snapPoints| >= 1 && speed == snapPoints[|snapPoints| - 1].position
    }

    /** Selects the last point; as written, speed takes that point's position, not its value. */
    method Pause()
      requires Valid()
      modifies this`handlePosition, this`speed
      ensures handlePosition == snapPoints[|snapPoints| - 1].position
      ensures speed == snapPoints[|snapPoints| - 1].position
      ensures Paused()
    {
      handlePosition := snapPoints[|snapPoints| - 1].position;
      speed := snapPoints[|snapPoints| - 1].position;
    }

    /**
     * One pass over all ordered pairs: when two points share a position and differ in
     * value, the greater-valued one moves right by 1. Reports whether any clash was seen.
     */
    method CheckAndResolveSnapConflicts() returns (conflicts: bool)
      modifies this`snapPoints
      ensures snapPoints == ResolvePass(old(snapPoints))
      ensures conflicts == HasConflict(old(snapPoints))
      ensures !conflicts ==> snapPoints == old(snapPoints)
    {
      ghost var s0 := snapPoints;
      var n := |snapPoints|;
      conflicts := false;
      var i := 0;
      while i < n
        invariant 0 <= i <= n && |snapPoints| == n
        invariant ResolveFrom(snapPoints, i) == ResolvePass(s0)
        invariant !conflicts ==> snapPoints == s0
        invariant conflicts ==> HasConflict(s0)
        invariant !conflicts ==> forall a, b :: 0 <= a < i && 0 <= b < n ==> !Conflicting(s0, a, b)
      {
        var found := ResolveRowInPlace(i);
        conflicts := conflicts || found;
        i := i + 1;
      }
    }

    /**
     * The inner scan of a pass: point `i` against every point in turn. Reports
     * whether it saw a clash, which happens exactly when point `i` clashes with
     * some point of the list it started on.
     */
    method ResolveRowInPlace(i: nat) returns (found: bool)
      requires i < |snapPoints|
      modifies this`snapPoints
      ensures snapPoints == ResolveRow(old(snapPoints), i, 0)
      ensures found == exists b :: 0 <= b < |old(snapPoints)| && Conflicting(old(snapPoints), i, b)
      ensures !found ==> snapPoints == old(snapPoints)
    {
      ghost var s0 := snapPoints;
      var n := |snapPoints|;
      found := false;
      var j := 0;
      while j < n
        invariant 0 <= j <= n && |snapPoints| == n
        invariant ResolveRow(snapPoints, i, j) == ResolveRow(s0, i, 0)
        invariant !found ==> snapPoints == s0
        invariant found ==> exists b :: 0 <= b < n && Conflicting(s0, i, b)
        invariant !found ==> forall b :: 0 <= b < j ==> !Conflicting(s0, i, b)
      {
        ghost var before := snapPoints;
        var p1, p2 := snapPoints[i], snapPoints[j];
        if p1.position == p2.position && p1.value != p2.value {
          assert !found ==> Conflicting(s0, i, j);
          if p1.value > p2.value {
            snapPoints := snapPoints[i := p1.(position := p1.position + 1.0)];
          } else {
            snapPoints := snapPoints[j := p2.(position := p2.position + 1.0)];
          }
          found := true;
        }
        assert snapPoints == ResolvePair(before, i, j);
        j := j + 1;
      }
    }

    /** The snap-point list for boid count `n` as the push loop builds it, before clashes are resolved. */
    method BuildSnapPoints(n: real) returns (sp: seq<SnapPoint>)
      ensures sp == SnapPointsFor(width, n)
    {
      var sliderWidth := (width - 2 * Inset) as real;
      sp := [
        SnapPoint((width - Inset) as real, -1.0, "Max"),
        SnapPoint(sliderWidth * 9.0 / 10.0 + Inset as real, n * 2.0, "2x")
      ];
      var a := ToInt32(n);
      var numTicks: nat := 0;
      ShrPositive(a, 0);
      while Shr(a, numTicks) > 0
        invariant numTicks <= TickCount(a)
        invariant Shr(a, numTicks) > 0 <==> numTicks < TickCount(a)
        invariant sp == Head(width, n) + TicksUpTo(width, a, numTicks)
        decreases TickCount(a) - numTicks
      {
        var d := "";
        if numTicks > 0 {
          d := "/" + NatToString(Pow2(numTicks));
        }
        var tick := SnapPoint((Inset + Shr(ToInt32(sliderWidth * 3.0 / 5.0), numTicks)) as real,
                              Shr(a, numTicks) as real, "1" + d + "x");
        TickLabelSpelled(numTicks, d);
        assert tick == Tick(width, a, numTicks);
        assert TicksUpTo(width, a, numTicks + 1) == TicksUpTo(width, a, numTicks) + [tick];
        sp := sp + [tick];
        numTicks := numTicks + 1;
        ShrPositive(a, numTicks);
      }
      sp := sp + [SnapPoint(Inset as real, 0.0, "Paused")];
    }

    /**
     * Rebuilds the snap points for boid count `n`, then resolves clashes: one pass,
     * and if it found any, up to 400 more until a pass finds none.
     */
    method UpdateSnapPoints(n: real) returns (ghost rounds: nat, ghost settled: bool)
      modifies this`snapPoints
      ensures Valid() && snapPoints == SettledSnapPoints(width, n)
      ensures 1 <= rounds <= 401
      ensures settled ==> !HasConflict(snapPoints)
      ensures !settled ==> rounds == 401
    {
      snapPoints := BuildSnapPoints(n);
      ghost var built := snapPoints;
      SnapPointsShape(width, n);
      var conflicts := CheckAndResolveSnapConflicts();
      rounds, settled := 1, !conflicts;
      if conflicts {
        var i := 0;
        while i < 400
          invariant 0 <= i <= 400 && rounds == 1 + i && !settled
          invariant snapPoints == Passes(built, rounds)
        {
          ghost var before := snapPoints;
          conflicts := CheckAndResolveSnapConflicts();
          rounds := rounds + 1;
          if !conflicts {
            settled := true;
            PassesSettled(built, rounds - 1, 401);
            break;
          }
          i := i + 1;
        }
      } else {
        PassesSettled(built, 0, 401);
      }
    }

    /** Finds the snap point a frame selects for handle position `h`. */
    method ClosestSnapPoint(h: real) returns (k: nat)
      requires Valid()
      ensures k == Nearest(snapPoints, h)
      ensures IsNearest(snapPoints, h, k)
    {
      k := 0;
      var i := 0;
      while i < |snapPoints|
        invariant 0 <= i <= |snapPoints| && k < |snapPoints|
        invariant NearestFrom(snapPoints, h, i, k) == Nearest(snapPoints, h)
      {
        if Dist(h, snapPoints[i]) < Dist(h, snapPoints[k]) {
          k := i;
        }
        i := i + 1;
      }
      NearestIsNearest(snapPoints, h);
    }

    /**
     * The per-frame update: rebuild the snap points, find the point nearest the handle,
     * move the handle to the mouse while dragging (else onto that point), and take
     * that point's value as the speed.
     */
    method Frame(n: real, mousePressed: bool, mouseX: real, mouseY: real)
      modifies this`snapPoints, this`handlePosition, this`speed
      ensures Valid() && snapPoints == SettledSnapPoints(width, n)
      ensures Moved(SnapPointsFor(width, n), snapPoints)
      ensures var k := Nearest(snapPoints, old(handlePosition));
        speed == snapPoints[k].value &&
        handlePosition == (if Dragging(mousePressed, mouseX, mouseY, width, height)
                           then Constrain(mouseX, 16.0, (width - 16) as real)
                           else snapPoints[k].position)
    {
      ghost var rounds, settled := UpdateSnapPoints(n);
      var k := ClosestSnapPoint(handlePosition);
      if Dragging(mousePressed, mouseX, mouseY, width, height) {
        handlePosition := Constrain(mouseX, 16.0, (width - 16) as real);
      } else {
        handlePosition := snapPoints[k].position;
      }
      speed := snapPoints[k].value;
    }
  }
}
