/**
  The background and noise estimate of aegean.py: the median and
  inter-quartile range of the values in a box, the mesh of boxes that
  `make_bkg_rms_image` lays over the image, and the loop that paints each
  box's estimate into the background and rms images.  The image is indexed
  `data[y][x]`, as numpy's `data.shape == (img_y, img_x)`.
 */
module Background {
  import opened Options
  import opened Floats
  import opened Sorting

  /** `np.extract(data == data, data)`: the values that are not NaN, in order. */
  function NotNaN(data: seq<Float>): (r: seq<Float>)
    ensures forall i :: 0 <= i < |r| ==> !r[i].NaN?
    ensures NaN !in r
    ensures forall v: Float :: !v.NaN? ==> multiset(r)[v] == multiset(data)[v]
  {
    if data == [] then []
    else
      assert data == [data[0]] + data[1..];
      var rest := NotNaN(data[1..]);
      if data[0].NaN? then rest else [data[0]] + rest
  }

  /** The NaN-free values of two inputs agree exactly when the inputs hold the
      same non-NaN values the same number of times. */
  lemma NotNaNSame(d1: seq<Float>, d2: seq<Float>)
    requires forall v: Float :: !v.NaN? ==> multiset(d1)[v] == multiset(d2)[v]
    ensures multiset(NotNaN(d1)) == multiset(NotNaN(d2))
  {
    var m1, m2 := multiset(NotNaN(d1)), multiset(NotNaN(d2));
    forall v ensures m1[v] == m2[v] {
      if v.NaN? {
        assert m1[v] == 0 && m2[v] == 0;
      }
    }
  }

  /** numpy's ascending float order; it is only asked of values that are not NaN. */
  predicate Ascending(a: Float, b: Float)
  {
    Le(a, b)
  }

  /** On values that are not NaN, `Ascending` is a total order. */
  lemma AscendingOrder(s: seq<Float>)
    requires forall i :: 0 <= i < |s| ==> !s[i].NaN?
    ensures TotalOn(Ascending, s) && TransitiveOn(Ascending, s) && AntisymmetricOn(Ascending, s)
  {
    forall a, b, c | a in s && b in s && c in s ensures Le(a, b) || Le(b, a) {
      LeTotalOrder(a, b, c);
    }
    forall a, b, c | a in s && b in s && c in s && Le(a, b) && Le(b, c) ensures Le(a, c) {
      LeTotalOrder(a, b, c);
    }
    forall a, b | a in s && b in s && Le(a, b) && Le(b, a) ensures a == b {
      LeTotalOrder(a, b, b);
    }
  }

  /** The non-NaN values of `data`, sorted ascending. */
  function Sorted(data: seq<Float>): (r: seq<Float>)
    ensures multiset(r) == multiset(NotNaN(data))
    ensures SortedBy(Ascending, r)
    ensures NaN !in r
  {
    var pixels := NotNaN(data);
    AscendingOrder(pixels);
    var r := Sort(Ascending, pixels);
    assert NaN !in multiset(r);
    r
  }

  /** IQR / 1.34896 is the standard deviation of a normal distribution. */
  const IqrToSigma: real := 1.34896

  /** `estimate_background(data)`: the median as background and the
      inter-quartile range over 1.34896 as rms, both picked at indices
      `n/2`, `n/4` and `n/4*3` of the sorted non-NaN values; `(NaN, NaN)`
      when fewer than four values are not NaN. */
  function EstimateBackground(data: seq<Float>): (r: (Float, Float))
    ensures |NotNaN(data)| < 4 ==> r == (NaN, NaN)
    ensures |NotNaN(data)| >= 4 ==> r.0 in data && !r.0.NaN?
    ensures r.1.NaN? || Ge(r.1, 0.0)
  {
    var s := Sorted(data);
    var n := |s|;
    assert n == |NotNaN(data)| by {
      assert |multiset(s)| == |multiset(NotNaN(data))|;
    }
    if n < 4 then (NaN, NaN)
    else
      assert s[n / 2] in multiset(NotNaN(data));
      Spread(s);
      (s[n / 2], Div(Sub(s[n / 4 * 3], s[n / 4]), Num(IqrToSigma)))
  }

  /** The spread of sorted values, the upper quartile less the lower one, is
      never negative, and neither is its quotient by `IqrToSigma`. */
  lemma Spread(s: seq<Float>)
    requires |s| >= 4 && SortedBy(Ascending, s)
    ensures Div(Sub(s[|s| / 4 * 3], s[|s| / 4]), Num(IqrToSigma)).NaN? ||
            Ge(Div(Sub(s[|s| / 4 * 3], s[|s| / 4]), Num(IqrToSigma)), 0.0)
  {
    var n := |s|;
    assert Ascending(s[n / 4], s[n / 4 * 3]);
    SubOrderedNotNegative(s[n / 4], s[n / 4 * 3]);
  }

  /** The estimate depends only on how often each non-NaN value occurs: not on
      the order of the values, nor on any NaN among them. */
  lemma EstimateIgnoresOrderAndNaN(d1: seq<Float>, d2: seq<Float>)
    requires forall v: Float :: !v.NaN? ==> multiset(d1)[v] == multiset(d2)[v]
    ensures EstimateBackground(d1) == EstimateBackground(d2)
  {
    NotNaNSame(d1, d2);
    var s1, s2 := Sorted(d1), Sorted(d2);
    assert forall i :: 0 <= i < |s1| ==> !s1[i].NaN? by {
      forall i | 0 <= i < |s1| ensures !s1[i].NaN? {
        assert s1[i] in s1;
      }
    }
    AscendingOrder(s1);
    SortedUnique(Ascending, s1, s2);
  }

  /** The estimate picks its values from any ascending arrangement of the
      non-NaN values: the one at `n/2`, and the ones at `n/4` and `n/4*3`. */
  lemma {:induction false} EstimatePicksSorted(data: seq<Float>, s: seq<Float>)
    requires multiset(s) == multiset(NotNaN(data)) && SortedBy(Ascending, s) && |s| >= 4
    ensures EstimateBackground(data) ==
      (s[|s| / 2], Div(Sub(s[|s| / 4 * 3], s[|s| / 4]), Num(IqrToSigma)))
  {
    var r := Sorted(data);
    assert forall i :: 0 <= i < |r| ==> !r[i].NaN? by {
      forall i | 0 <= i < |r| ensures !r[i].NaN? {
        assert r[i] in r;
      }
    }
    AscendingOrder(r);
    SortedUnique(Ascending, r, s);
    assert |s| == |NotNaN(data)| by {
      assert |multiset(s)| == |multiset(NotNaN(data))|;
    }
  }

  /** `step * q`, by repeated addition, so that the lemmas on ranges below
      stay within linear arithmetic. */
  function Mul(step: nat, q: nat): nat
  {
    if q == 0 then 0 else Mul(step, q - 1) + step
  }

  lemma {:induction false} MulIsProduct(step: nat, q: nat)
    ensures Mul(step, q) == step * q
  {
    if q > 0 {
      MulIsProduct(step, q - 1);
      assert step * q == step * (q - 1) + step;
    }
  }

  /** How many of `start, start + step, ...` lie below `stop`. */
  function Count(start: int, stop: int, step: nat): nat
    requires step >= 1
    decreases stop - start
  {
    if start >= stop then 0 else 1 + Count(start + step, stop, step)
  }

  /** `range(start, stop, step)` for a positive step, as Python defines it:
      `start + i * step` for every `i >= 0` that keeps it below `stop`. */
  function Range(start: int, stop: int, step: nat): (r: seq<int>)
    requires step >= 1
  {
    seq(Count(start, stop, step), i requires 0 <= i < Count(start, stop, step) => start + Mul(step, i))
  }

  /** `range` has `q` elements when `stop` lies in the `q`-th step. */
  lemma {:induction false} RangeLength(start: int, stop: int, step: nat, q: nat)
    requires step >= 1
    requires if q == 0 then stop <= start else start + Mul(step, q - 1) < stop <= start + Mul(step, q)
    ensures |Range(start, stop, step)| == q
    ensures Count(start, stop, step) == q
    decreases q
  {
    if q > 0 {
      MulShift(step, q - 1);
      if q > 1 {
        MulShift(step, q - 2);
      }
      RangeLength(start + step, stop, step, q - 1);
    }
  }

  /** `step * (k + 1) == step + step * k`, in the other order of unfolding. */
  lemma {:induction false} MulShift(step: nat, k: nat)
    ensures Mul(step, k + 1) == step + Mul(step, k)
  {
  }

  /** Boxes `[mins[i], maxs[i])` that follow one another without gap or
      overlap from 0 to `img`; a box may be empty. */
  ghost predicate Tiling(mins: seq<int>, maxs: seq<int>, img: int)
  {
    && |mins| == |maxs| >= 1
    && mins[0] == 0 && 0 <= maxs[0] && maxs[|maxs| - 1] == img
    && (forall i :: 0 < i < |mins| ==> mins[i] == maxs[i - 1])
    && (forall i, j :: 0 <= i <= j < |maxs| ==> maxs[i] <= maxs[j])
  }

  /** The width of box `i`. */
  function BoxWidth(mins: seq<int>, maxs: seq<int>, i: int): int
    requires 0 <= i < |mins| && i < |maxs|
  {
    maxs[i] - mins[i]
  }

  /** Each box of a tiling lies within the axis, and earlier boxes end before
      later ones begin. */
  lemma TilingBounds(mins: seq<int>, maxs: seq<int>, img: int, i: int)
    requires Tiling(mins, maxs, img) && 0 <= i < |mins|
    ensures 0 <= mins[i] <= maxs[i] <= img
    ensures forall j :: i < j < |mins| ==> maxs[i] <= mins[j]
  {
    assert maxs[i] <= maxs[|maxs| - 1];
    if i > 0 {
      assert maxs[0] <= maxs[i - 1] <= maxs[i];
    }
  }

  /** The mesh of `make_bkg_rms_image` along one axis of `img` pixels, for a
      box width of `width` pixels: full boxes laid outwards from the centre,
      a partial box at each end, or the whole axis when the width reaches it. */
  function Tiles(img: nat, width: nat): (r: (seq<int>, seq<int>))
    requires width >= 1
  {
    if width >= img then ([0], [img])
    else
      var cen := img / 2;
      var start := (cen - width / 2) % width;
      var end := img - (img - start) % width;
      ([0] + Range(start, end, width) + [end], [start] + Range(start + width, end + 1, width) + [img])
  }

  /** The mesh tiles the axis; every box but the first and last is exactly
      `width` wide, and none is wider. */
  lemma TilesSpec(img: nat, width: nat)
    requires width >= 1
    ensures Tiling(Tiles(img, width).0, Tiles(img, width).1, img)
    ensures var (mins, maxs) := Tiles(img, width);
      && (forall i :: 0 < i < |mins| - 1 ==> BoxWidth(mins, maxs, i) == width)
      && (forall i :: 0 <= i < |mins| ==> BoxWidth(mins, maxs, i) <= width)
      && (width >= img ==> mins == [0] && maxs == [img])
  {
    if width < img {
      var start, q := TilesLadder(img, width);
      var (mins, maxs) := Ladder(img, width, start, q);
      Steps(img, width, start, q, mins, maxs);
    }
  }

  /** Below the axis length, the mesh is a ladder of `q` full boxes from `start`. */
  lemma TilesLadder(img: nat, width: nat) returns (start: int, q: nat)
    requires 1 <= width < img
    ensures 0 <= start < width && 0 <= img - (start + Mul(width, q)) < width
    ensures Tiles(img, width) == Ladder(img, width, start, q)
  {
    start := (img / 2 - width / 2) % width;
    q := WholeSteps(img - start, width);
    assert img - (img - start) % width == start + Mul(width, q);
    Mesh(img, width, start, q);
  }

  /** The part of `a` that `a % b` leaves is a whole number of steps `b`. */
  lemma WholeSteps(a: nat, b: nat) returns (q: nat)
    requires b >= 1
    ensures a - a % b == Mul(b, q) && 0 <= a % b < b
  {
    q := a / b;
    MulIsProduct(b, q);
  }

  /** The boxes `[0, start)`, `q` full boxes from `start`, and the rest of the
      axis, entry by entry. */
  function Ladder(img: nat, width: nat, start: int, q: nat): (r: (seq<int>, seq<int>))
  {
    (seq(q + 2, i requires 0 <= i < q + 2 => if i == 0 then 0 else if i <= q then start + Mul(width, i - 1) else start + Mul(width, q)),
     seq(q + 2, i requires 0 <= i < q + 2 => if i == 0 then start else if i <= q then start + Mul(width, i) else img))
  }

  /** The two `range` calls of the mesh yield the ladder of boxes. */
  lemma Mesh(img: nat, width: nat, start: int, q: nat)
    requires width >= 1
    ensures var end := start + Mul(width, q);
      ([0] + Range(start, end, width) + [end], [start] + Range(start + width, end + 1, width) + [img]) ==
      Ladder(img, width, start, q)
  {
    var end := start + Mul(width, q);
    var r1, r2 := Range(start, end, width), Range(start + width, end + 1, width);
    RangeLength(start, end, width, q);
    RangeLength(start + width, end + 1, width, q);
    Rungs(img, width, start, q, r1, r2);
  }

  /** The ladder, from what is known of the two ranges. */
  lemma Rungs(img: nat, width: nat, start: int, q: nat, r1: seq<int>, r2: seq<int>)
    requires |r1| == q && |r2| == q
    requires forall i :: 0 <= i < q ==> r1[i] == start + Mul(width, i)
    requires forall i :: 0 <= i < q ==> r2[i] == start + width + Mul(width, i)
    ensures ([0] + r1 + [start + Mul(width, q)], [start] + r2 + [img]) == Ladder(img, width, start, q)
  {
    var (mins, maxs) := Ladder(img, width, start, q);
    assert [0] + r1 + [start + Mul(width, q)] == mins;
    assert [start] + r2 + [img] == maxs;
  }

  /** The mesh, entry by entry. */
  lemma Steps(img: nat, width: nat, start: int, q: nat, mins: seq<int>, maxs: seq<int>)
    requires 0 <= start < width && 0 <= img - (start + Mul(width, q)) < width
    requires |mins| == q + 2 && |maxs| == q + 2
    requires mins[0] == 0 && maxs[0] == start && mins[q + 1] == start + Mul(width, q) && maxs[q + 1] == img
    requires forall i :: 0 < i <= q ==> mins[i] == start + Mul(width, i - 1)
    requires forall i :: 0 < i <= q ==> maxs[i] == start + Mul(width, i)
    ensures Tiling(mins, maxs, img)
    ensures forall i :: 0 < i < |mins| - 1 ==> BoxWidth(mins, maxs, i) == width
    ensures forall i :: 0 <= i < |mins| ==> BoxWidth(mins, maxs, i) <= width
  {
    forall i | 0 < i < |mins| ensures mins[i] == maxs[i - 1] {
      if i > 1 {
        assert mins[i] == start + Mul(width, i - 1) == maxs[i - 1];
      }
    }
    forall i, j | 0 <= i <= j < |maxs| ensures maxs[i] <= maxs[j] {
      if 0 < i <= q {
        MulGrows(width, i, q);
        if j <= q {
          MulGrows(width, i, j);
        }
      }
    }
  }

  /** `Mul` grows with its second argument. */
  lemma {:induction false} MulGrows(step: nat, i: nat, q: nat)
    requires i <= q
    ensures Mul(step, i) <= Mul(step, q)
    decreases q - i
  {
    if i < q {
      MulGrows(step, i + 1, q);
    }
  }

  /** Every pixel of the axis lies in one box of a tiling. */
  lemma {:induction false} TilingCovers(mins: seq<int>, maxs: seq<int>, img: int, v: int, k: nat)
    requires Tiling(mins, maxs, img) && k < |mins| && mins[k] <= v < img
    ensures exists i :: k <= i < |mins| && mins[i] <= v < maxs[i]
    decreases |mins| - k
  {
    if v >= maxs[k] {
      assert k + 1 < |mins| && mins[k + 1] == maxs[k];
      TilingCovers(mins, maxs, img, v, k + 1);
    }
  }

  /** The box of a tiling that holds pixel `v`. */
  ghost function TileOf(mins: seq<int>, maxs: seq<int>, img: int, v: int): (i: nat)
    requires Tiling(mins, maxs, img) && 0 <= v < img
    ensures i < |mins| && 0 <= mins[i] <= v < maxs[i] <= img
    ensures forall j :: 0 <= j < |mins| && mins[j] <= v < maxs[j] ==> j == i
  {
    TilingCovers(mins, maxs, img, v, 0);
    var i :| 0 <= i < |mins| && mins[i] <= v < maxs[i];
    TilingBounds(mins, maxs, img, i);
    forall j | 0 <= j < |mins| && mins[j] <= v < maxs[j] ensures j == i {
      TilingBounds(mins, maxs, img, j);
    }
    i
  }

  /** An image of `h` rows of `w` values each, indexed `[y][x]`. */
  predicate IsImage(data: seq<seq<Float>>, h: nat, w: nat)
  {
    |data| == h && forall y :: 0 <= y < h ==> |data[y]| == w
  }

  /** `data[y0:y1, x0:x1].ravel()`: the values of a box, row by row. */
  function Box(data: seq<seq<Float>>, h: nat, w: nat, y0: int, y1: int, x0: int, x1: int): (r: seq<Float>)
    requires IsImage(data, h, w) && 0 <= y0 <= y1 <= h && 0 <= x0 <= x1 <= w
    ensures |r| == Cells(y1 - y0, x1 - x0)
    ensures forall y, x :: y0 <= y < y1 && x0 <= x < x1 ==> data[y][x] in r
    ensures forall v :: v in r ==> exists y, x :: y0 <= y < y1 && x0 <= x < x1 && data[y][x] == v
    decreases y1 - y0
  {
    if y0 == y1 then []
    else
      var rest := Box(data, h, w, y0 + 1, y1, x0, x1);
      assert forall x :: x0 <= x < x1 ==> data[y0][x] == data[y0][x0..x1][x - x0];
      data[y0][x0..x1] + rest
  }

  /** The box is read out row by row: pixel `(y, x)` sits at its row-major
      position, so every pixel of the box is there once with its value. */
  lemma {:induction false} BoxRavel(data: seq<seq<Float>>, h: nat, w: nat, y0: int, y1: int, x0: int, x1: int, y: int, x: int)
    requires IsImage(data, h, w) && 0 <= y0 <= y1 <= h && 0 <= x0 <= x1 <= w
    requires y0 <= y < y1 && x0 <= x < x1
    ensures Cells(y - y0, x1 - x0) + (x - x0) < |Box(data, h, w, y0, y1, x0, x1)|
    ensures Box(data, h, w, y0, y1, x0, x1)[Cells(y - y0, x1 - x0) + (x - x0)] == data[y][x]
    decreases y1 - y0
  {
    var row := data[y0][x0..x1];
    var rest := Box(data, h, w, y0 + 1, y1, x0, x1);
    assert Box(data, h, w, y0, y1, x0, x1) == row + rest;
    if y > y0 {
      BoxRavel(data, h, w, y0 + 1, y1, x0, x1, y, x);
      assert Cells(y - y0, x1 - x0) == |row| + Cells(y - (y0 + 1), x1 - x0);
    } else {
      assert Cells(y - y0, x1 - x0) == 0;
      assert row[x - x0] == data[y][x];
    }
  }

  /** The number of values in `rows` rows of `cols` values each: the row-major
      position of the first value of row `rows`. */
  function Cells(rows: nat, cols: nat): nat
  {
    if rows == 0 then 0 else cols + Cells(rows - 1, cols)
  }

  /** Row-major positions are products: row `i` starts at `i * cols`, so a
      box of `rows` by `cols` holds `rows * cols` values. */
  lemma {:induction false} CellsProduct(rows: nat, cols: nat)
    ensures Cells(rows, cols) == rows * cols
  {
    if rows > 0 {
      CellsProduct(rows - 1, cols);
    }
  }

  /** The estimate over box `i` of the row tiling and box `j` of the column tiling. */
  function BoxLevel(data: seq<seq<Float>>, h: nat, w: nat, ymins: seq<int>, ymaxs: seq<int>,
                    xmins: seq<int>, xmaxs: seq<int>, i: int, j: int): (Float, Float)
    requires IsImage(data, h, w) && Tiling(ymins, ymaxs, h) && Tiling(xmins, xmaxs, w)
    requires 0 <= i < |ymins| && 0 <= j < |xmins|
  {
    TilingBounds(ymins, ymaxs, h, i);
    TilingBounds(xmins, xmaxs, w, j);
    EstimateBackground(Box(data, h, w, ymins[i], ymaxs[i], xmins[j], xmaxs[j]))
  }

  /** The background and rms of pixel `(y, x)` under a mesh of `widthY` by
      `widthX` pixels: the estimate over the mesh box that holds it. */
  ghost function Level(data: seq<seq<Float>>, h: nat, w: nat, widthY: nat, widthX: nat, y: int, x: int): (Float, Float)
    requires IsImage(data, h, w) && widthY >= 1 && widthX >= 1 && 0 <= y < h && 0 <= x < w
  {
    var (ymins, ymaxs) := Tiles(h, widthY);
    var (xmins, xmaxs) := Tiles(w, widthX);
    TilesSpec(h, widthY);
    TilesSpec(w, widthX);
    BoxLevel(data, h, w, ymins, ymaxs, xmins, xmaxs, TileOf(ymins, ymaxs, h, y), TileOf(xmins, xmaxs, w, x))
  }

  /** The estimate over box `(i, j)` of the mesh of `widthY` by `widthX` pixels. */
  ghost function MeshLevel(data: seq<seq<Float>>, h: nat, w: nat, widthY: nat, widthX: nat, i: int, j: int): (Float, Float)
    requires IsImage(data, h, w) && widthY >= 1 && widthX >= 1
    requires 0 <= i < |Tiles(h, widthY).0| && 0 <= j < |Tiles(w, widthX).0|
  {
    TilesSpec(h, widthY);
    TilesSpec(w, widthX);
    BoxLevel(data, h, w, Tiles(h, widthY).0, Tiles(h, widthY).1, Tiles(w, widthX).0, Tiles(w, widthX).1, i, j)
  }

  /** Every pixel of mesh box `(i, j)` gets the estimate over that box, so
      pixels of one box share their level; the rms level is never negative. */
  lemma LevelPerBox(data: seq<seq<Float>>, h: nat, w: nat, widthY: nat, widthX: nat, y: int, x: int, i: int, j: int)
    requires IsImage(data, h, w) && widthY >= 1 && widthX >= 1 && 0 <= y < h && 0 <= x < w
    requires 0 <= i < |Tiles(h, widthY).0| && i < |Tiles(h, widthY).1| && Tiles(h, widthY).0[i] <= y < Tiles(h, widthY).1[i]
    requires 0 <= j < |Tiles(w, widthX).0| && j < |Tiles(w, widthX).1| && Tiles(w, widthX).0[j] <= x < Tiles(w, widthX).1[j]
    ensures Level(data, h, w, widthY, widthX, y, x) == MeshLevel(data, h, w, widthY, widthX, i, j)
    ensures Level(data, h, w, widthY, widthX, y, x).1.NaN? || Ge(Level(data, h, w, widthY, widthX, y, x).1, 0.0)
  {
    var (ymins, ymaxs) := Tiles(h, widthY);
    var (xmins, xmaxs) := Tiles(w, widthX);
    TilesSpec(h, widthY);
    TilesSpec(w, widthX);
    assert TileOf(ymins, ymaxs, h, y) == i && TileOf(xmins, xmaxs, w, x) == j;
  }

  /** Every pixel of the mesh columns before `j`, and of the boxes before `i`
      in column `j`, holds the estimate of its box in `bkgs` and `rmss`. */
  ghost predicate Filled(data: seq<seq<Float>>, h: nat, w: nat, ymins: seq<int>, ymaxs: seq<int>,
                         xmins: seq<int>, xmaxs: seq<int>, bkgs: seq<seq<Float>>, rmss: seq<seq<Float>>, j: int, i: int)
    requires IsImage(data, h, w) && Tiling(ymins, ymaxs, h) && Tiling(xmins, xmaxs, w)
  {
    && IsImage(bkgs, h, w) && IsImage(rmss, h, w)
    && forall y, x ::
         (0 <= y < h && 0 <= x < w &&
          (TileOf(xmins, xmaxs, w, x) < j || (TileOf(xmins, xmaxs, w, x) == j && TileOf(ymins, ymaxs, h, y) < i))) ==>
         (bkgs[y][x], rmss[y][x]) ==
           BoxLevel(data, h, w, ymins, ymaxs, xmins, xmaxs, TileOf(ymins, ymaxs, h, y), TileOf(xmins, xmaxs, w, x))
  }

  /** Painting box `(i, j)` with its estimate extends the filled part by that box. */
  lemma FillStep(data: seq<seq<Float>>, h: nat, w: nat, ymins: seq<int>, ymaxs: seq<int>,
                 xmins: seq<int>, xmaxs: seq<int>, bkgs: seq<seq<Float>>, rmss: seq<seq<Float>>,
                 bkgs': seq<seq<Float>>, rmss': seq<seq<Float>>, i: int, j: int)
    requires IsImage(data, h, w) && Tiling(ymins, ymaxs, h) && Tiling(xmins, xmaxs, w)
    requires 0 <= i < |ymins| && 0 <= j < |xmins|
    requires Filled(data, h, w, ymins, ymaxs, xmins, xmaxs, bkgs, rmss, j, i)
    requires IsImage(bkgs', h, w) && IsImage(rmss', h, w)
    requires forall y, x :: 0 <= y < h && 0 <= x < w ==>
      (bkgs'[y][x], rmss'[y][x]) ==
        if ymins[i] <= y < ymaxs[i] && xmins[j] <= x < xmaxs[j]
        then BoxLevel(data, h, w, ymins, ymaxs, xmins, xmaxs, i, j)
        else (bkgs[y][x], rmss[y][x])
    ensures Filled(data, h, w, ymins, ymaxs, xmins, xmaxs, bkgs', rmss', j, i + 1)
  {
    forall y, x | 0 <= y < h && 0 <= x < w &&
        (TileOf(xmins, xmaxs, w, x) < j || (TileOf(xmins, xmaxs, w, x) == j && TileOf(ymins, ymaxs, h, y) < i + 1))
      ensures (bkgs'[y][x], rmss'[y][x]) ==
        BoxLevel(data, h, w, ymins, ymaxs, xmins, xmaxs, TileOf(ymins, ymaxs, h, y), TileOf(xmins, xmaxs, w, x))
    {
      var cy, cx := TileOf(ymins, ymaxs, h, y), TileOf(xmins, xmaxs, w, x);
      if !(ymins[i] <= y < ymaxs[i] && xmins[j] <= x < xmaxs[j]) {
        assert cx < j || cy < i;
      }
    }
  }

  /** A column of boxes filled to its last box is the start of the next column. */
  lemma FillColumn(data: seq<seq<Float>>, h: nat, w: nat, ymins: seq<int>, ymaxs: seq<int>,
                   xmins: seq<int>, xmaxs: seq<int>, bkgs: seq<seq<Float>>, rmss: seq<seq<Float>>, j: int)
    requires IsImage(data, h, w) && Tiling(ymins, ymaxs, h) && Tiling(xmins, xmaxs, w)
    requires Filled(data, h, w, ymins, ymaxs, xmins, xmaxs, bkgs, rmss, j, |ymins|)
    ensures Filled(data, h, w, ymins, ymaxs, xmins, xmaxs, bkgs, rmss, j + 1, 0)
  {
  }

  /** The grid of values held in `a`, row by row. */
  ghost function Values(a: array2<Float>): (s: seq<seq<Float>>)
    reads a
    ensures IsImage(s, a.Length0, a.Length1)
    ensures forall y, x :: 0 <= y < a.Length0 && 0 <= x < a.Length1 ==> s[y][x] == a[y, x]
  {
    seq(a.Length0, y reads a =>
      seq(a.Length1, x reads a =>
        if 0 <= y < a.Length0 && 0 <= x < a.Length1 then a[y, x] else NaN))
  }

  /** `a[y0:y1, x0:x1] = v`. */
  method PaintBox(a: array2<Float>, y0: int, y1: int, x0: int, x1: int, v: Float)
    requires 0 <= y0 <= y1 <= a.Length0 && 0 <= x0 <= x1 <= a.Length1
    modifies a
    ensures forall y, x :: 0 <= y < a.Length0 && 0 <= x < a.Length1 ==>
      a[y, x] == if y0 <= y < y1 && x0 <= x < x1 then v else old(a[y, x])
  {
    var y := y0;
    while y < y1
      invariant y0 <= y <= y1
      invariant forall b, c :: 0 <= b < a.Length0 && 0 <= c < a.Length1 ==>
        a[b, c] == if y0 <= b < y && x0 <= c < x1 then v else old(a[b, c])
    {
      var x := x0;
      while x < x1
        invariant x0 <= x <= x1
        invariant forall b, c :: 0 <= b < a.Length0 && 0 <= c < a.Length1 ==>
          a[b, c] == if (y0 <= b < y && x0 <= c < x1) || (b == y && x0 <= c < x) then v else old(a[b, c])
      {
        a[y, x] := v;
        x := x + 1;
      }
      y := y + 1;
    }
  }

  /** The loops of `make_bkg_rms_image`: each box of the mesh, column by
      column, gets the estimate over it in `bkg` and `rms`. */
  method FillMesh(data: seq<seq<Float>>, h: nat, w: nat, ymins: seq<int>, ymaxs: seq<int>,
                  xmins: seq<int>, xmaxs: seq<int>, bkg: array2<Float>, rms: array2<Float>)
    requires IsImage(data, h, w) && Tiling(ymins, ymaxs, h) && Tiling(xmins, xmaxs, w)
    requires bkg.Length0 == h && bkg.Length1 == w && rms.Length0 == h && rms.Length1 == w && bkg != rms
    modifies bkg, rms
    ensures Filled(data, h, w, ymins, ymaxs, xmins, xmaxs, Values(bkg), Values(rms), |xmins|, 0)
  {
    var j := 0;
    while j < |xmins|
      invariant 0 <= j <= |xmins|
      invariant Filled(data, h, w, ymins, ymaxs, xmins, xmaxs, Values(bkg), Values(rms), j, 0)
    {
      FillBoxes(data, h, w, ymins, ymaxs, xmins, xmaxs, bkg, rms, j);
      FillColumn(data, h, w, ymins, ymaxs, xmins, xmaxs, Values(bkg), Values(rms), j);
      j := j + 1;
    }
  }

  /** The inner loop: the boxes of column `j`, top to bottom. */
  method FillBoxes(data: seq<seq<Float>>, h: nat, w: nat, ymins: seq<int>, ymaxs: seq<int>,
                   xmins: seq<int>, xmaxs: seq<int>, bkg: array2<Float>, rms: array2<Float>, j: int)
    requires IsImage(data, h, w) && Tiling(ymins, ymaxs, h) && Tiling(xmins, xmaxs, w) && 0 <= j < |xmins|
    requires bkg.Length0 == h && bkg.Length1 == w && rms.Length0 == h && rms.Length1 == w && bkg != rms
    requires Filled(data, h, w, ymins, ymaxs, xmins, xmaxs, Values(bkg), Values(rms), j, 0)
    modifies bkg, rms
    ensures Filled(data, h, w, ymins, ymaxs, xmins, xmaxs, Values(bkg), Values(rms), j, |ymins|)
  {
    var i := 0;
    while i < |ymins|
      invariant 0 <= i <= |ymins|
      invariant Filled(data, h, w, ymins, ymaxs, xmins, xmaxs, Values(bkg), Values(rms), j, i)
    {
      TilingBounds(ymins, ymaxs, h, i);
      TilingBounds(xmins, xmaxs, w, j);
      var est := EstimateBackground(Box(data, h, w, ymins[i], ymaxs[i], xmins[j], xmaxs[j]));
      ghost var bkgs, rmss := Values(bkg), Values(rms);
      PaintBox(bkg, ymins[i], ymaxs[i], xmins[j], xmaxs[j], est.0);
      PaintBox(rms, ymins[i], ymaxs[i], xmins[j], xmaxs[j], est.1);
      FillStep(data, h, w, ymins, ymaxs, xmins, xmaxs, bkgs, rmss, Values(bkg), Values(rms), i, j);
      i := i + 1;
    }
  }

  /** Python's truth value of `forced_rms`: given and not zero. */
  predicate Truthy(forced: Option<Float>)
  {
    forced.Some? && forced.value != Num(0.0)
  }

  /** `make_bkg_rms_image(data, beam, mesh_size, forced_rms)` for an image of
      `h` rows and `w` columns and a mesh of `widthY` by `widthX` pixels:
      a zero background and a constant rms when `forced_rms` is truthy, and
      otherwise every pixel gets the estimate over the mesh box that holds it. */
  method MakeBkgRmsImage(data: seq<seq<Float>>, h: nat, w: nat, widthY: nat, widthX: nat, forced: Option<Float>)
    returns (bkg: array2<Float>, rms: array2<Float>)
    requires IsImage(data, h, w) && widthY >= 1 && widthX >= 1
    ensures fresh(bkg) && fresh(rms)
    ensures bkg.Length0 == h && bkg.Length1 == w && rms.Length0 == h && rms.Length1 == w
    ensures Truthy(forced) ==> forall y, x :: 0 <= y < h && 0 <= x < w ==>
      bkg[y, x] == Num(0.0) && rms[y, x] == forced.value
    ensures !Truthy(forced) ==> forall y, x :: 0 <= y < h && 0 <= x < w ==>
      (bkg[y, x], rms[y, x]) == Level(data, h, w, widthY, widthX, y, x)
  {
    bkg := new Float[h, w]((y, x) => Num(0.0));
    rms := new Float[h, w]((y, x) => Num(0.0));
    if Truthy(forced) {
      PaintBox(rms, 0, h, 0, w, forced.value);
      return;
    }
    var (ymins, ymaxs) := Tiles(h, widthY);
    var (xmins, xmaxs) := Tiles(w, widthX);
    TilesSpec(h, widthY);
    TilesSpec(w, widthX);
    FillMesh(data, h, w, ymins, ymaxs, xmins, xmaxs, bkg, rms);
    forall y, x | 0 <= y < h && 0 <= x < w
      ensures (bkg[y, x], rms[y, x]) == Level(data, h, w, widthY, widthX, y, x)
    {
      assert TileOf(xmins, xmaxs, w, x) < |xmins|;
    }
  }
}
