/**
  The small helpers of aegean.py: clamping a value, putting an ellipse's axes
  in order, folding a position angle, ordering output sources, and the pixel
  box that a forced flux measurement cuts out around a position.  Floats are
  modelled as reals here; NaN and infinite arguments are not considered.
 */
module Helpers {
  import opened Options

  /** `within(x, xm, xx)`: `x` clamped to `[xm, xx]`, i.e. `min(max(x, xm), xx)`. */
  function Within(x: real, xm: real, xx: real): (r: real)
    ensures r <= xx
    ensures xm <= xx ==> xm <= r
    ensures xm <= x <= xx ==> r == x
    ensures x < xm <= xx ==> r == xm
    ensures xx < x ==> r == xx
    ensures xx < xm ==> r == xx
  {
    var m := if xm > x then xm else x;
    if xx < m then xx else m
  }

  /** Clamping twice is clamping once, and clamping keeps the order of its inputs. */
  lemma WithinIdempotentMonotone(x: real, y: real, xm: real, xx: real)
    requires xm <= xx
    ensures Within(Within(x, xm, xx), xm, xx) == Within(x, xm, xx)
    ensures x <= y ==> Within(x, xm, xx) <= Within(y, xm, xx)
  {
  }

  /** The fields of an ellipse that `fix_shape` reads and writes. */
  datatype Shape = Shape(a: real, b: real, errA: real, errB: real, pa: real)

  /** The shape `fix_shape` leaves: axes swapped, with their errors, and the
      position angle turned by 90 degrees exactly when `a < b`. */
  function Fixed(s: Shape): (r: Shape)
    ensures r.a >= r.b
    ensures r.a == (if s.a >= s.b then s.a else s.b) && r.b == (if s.a >= s.b then s.b else s.a)
    ensures s.a < s.b ==> r.errA == s.errB && r.errB == s.errA && r.pa == s.pa + 90.0
    ensures s.a >= s.b ==> r == s
  {
    if s.a < s.b then Shape(s.b, s.a, s.errB, s.errA, s.pa + 90.0) else s
  }

  /** A fixed shape is left alone by a second fix. */
  lemma {:induction false} FixedIdempotent(s: Shape)
    ensures Fixed(Fixed(s)) == Fixed(s)
  {
    var r := Fixed(s);
    assert r.a >= r.b;
  }

  /** An `OutputSource`, reduced to the fields the modelled helpers use. */
  class OutputSource {
    var island: int
    var source: int
    var a: real
    var b: real
    var errA: real
    var errB: real
    var pa: real

    function ShapeOf(): Shape
      reads this
    {
      Shape(a, b, errA, errB, pa)
    }

    /** `fix_shape(source)`: makes `a >= b` in place. */
    method FixShape()
      modifies this
      ensures ShapeOf() == Fixed(old(ShapeOf()))
      ensures island == old(island) && source == old(source)
    {
      if a < b {
        a, b := b, a;
        errA, errB := errB, errA;
        pa := pa + 90.0;
      }
    }

    /** `__cmp__`: orders sources by island, then by source number. */
    function Cmp(other: OutputSource): (r: int)
      reads this, other
      ensures r == -1 || r == 0 || r == 1
      ensures r == 0 <==> island == other.island && source == other.source
      ensures r == -1 <==> island < other.island || (island == other.island && source < other.source)
    {
      if island > other.island then 1
      else if island < other.island then -1
      else if source > other.source then 1
      else if source < other.source then -1
      else 0
    }
  }

  /** `__cmp__` is a valid comparison: antisymmetric and transitive. */
  lemma CmpOrder(x: OutputSource, y: OutputSource, z: OutputSource)
    ensures x.Cmp(y) == -y.Cmp(x)
    ensures x.Cmp(y) <= 0 && y.Cmp(z) <= 0 ==> x.Cmp(z) <= 0
    ensures x.Cmp(x) == 0
  {
  }

  /** The angle in (-90, 90] that differs from `pa` by a whole number of half turns. */
  function Folded(pa: real): (r: real)
    ensures -90.0 < r <= 90.0
  {
    pa + 180.0 * ((90.0 - pa) / 180.0).Floor as real
  }

  /** Only one angle in (-90, 90] differs from `pa` by whole half turns. */
  lemma FoldedUnique(pa: real, r: real, k: int)
    requires -90.0 < r <= 90.0 && r == pa + 180.0 * k as real
    ensures r == Folded(pa)
  {
    var n := ((90.0 - pa) / 180.0).Floor;
    var f := Folded(pa);
    assert f == pa + 180.0 * n as real;
    assert r - f == 180.0 * (k - n) as real;
    assert k == n;
  }

  /** Folding ignores whole half turns and leaves an angle in range as it is. */
  lemma FoldedPeriodic(pa: real, k: int)
    ensures Folded(pa + 180.0 * k as real) == Folded(pa)
    ensures -90.0 < pa <= 90.0 ==> Folded(pa) == pa
  {
    var n := ((90.0 - (pa + 180.0 * k as real)) / 180.0).Floor;
    FoldedUnique(pa, Folded(pa + 180.0 * k as real), n + k);
    if -90.0 < pa <= 90.0 {
      FoldedUnique(pa, pa, 0);
    }
  }

  /** `pa_limit(pa)`: adds or removes half turns until the angle is in (-90, 90]. */
  method PaLimit(pa0: real) returns (pa: real)
    ensures pa == Folded(pa0)
  {
    pa := pa0;
    ghost var k: int := 0;
    while pa <= -90.0
      invariant pa == pa0 + 180.0 * k as real
      decreases (-pa).Floor
    {
      pa := pa + 180.0;
      k := k + 1;
    }
    while pa > 90.0
      invariant pa > -90.0
      invariant pa == pa0 + 180.0 * k as real
      decreases pa.Floor
    {
      pa := pa - 180.0;
      k := k - 1;
    }
    FoldedUnique(pa0, pa, k);
  }

  /** A pixel box `[xmin, xmax) x [ymin, ymax)`. */
  datatype Cutout = Cutout(xmin: int, xmax: int, ymin: int, ymax: int)

  /** The box `force_measure_flux` cuts around pixel `(x, y)` for a beam
      `xwidth` by `ywidth` pixels across, or None when the pixel is off the
      image and the position is skipped. */
  function CutoutBox(x: int, y: int, imgX: nat, imgY: nat, xwidth: nat, ywidth: nat): (r: Option<Cutout>)
    ensures r.None? <==> !(0 <= x < imgX && 0 <= y < imgY)
    ensures r.Some? ==> 0 <= r.value.xmin <= x < r.value.xmax <= imgX
    ensures r.Some? ==> 0 <= r.value.ymin <= y < r.value.ymax <= imgY
  {
    if !(0 <= x < imgX) || !(0 <= y < imgY) then None
    else
      var xmin := if 0 > x - xwidth / 2 then 0 else x - xwidth / 2;
      var ymin := if 0 > y - ywidth / 2 then 0 else y - ywidth / 2;
      var xmax := if imgX < x + xwidth / 2 + 1 then imgX else x + xwidth / 2 + 1;
      var ymax := if imgY < y + ywidth / 2 + 1 then imgY else y + ywidth / 2 + 1;
      Some(Cutout(xmin, xmax, ymin, ymax))
  }

  /** The box is the window of half-width `xwidth / 2` (and `ywidth / 2`)
      around the pixel, intersected with the image. */
  lemma CutoutIsClippedWindow(x: int, y: int, imgX: nat, imgY: nat, xwidth: nat, ywidth: nat, u: int, v: int)
    requires 0 <= x < imgX && 0 <= y < imgY
    ensures var c := CutoutBox(x, y, imgX, imgY, xwidth, ywidth).value;
      (c.xmin <= u < c.xmax <==> 0 <= u < imgX && x - xwidth / 2 <= u <= x + xwidth / 2) &&
      (c.ymin <= v < c.ymax <==> 0 <= v < imgY && y - ywidth / 2 <= v <= y + ywidth / 2)
  {
  }
}
