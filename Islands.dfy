/**
  The pixel-array helpers of Aegean's `Island` class (aegean.py): `map2list`,
  `get_pixlist` and `list2map`.  An island's `pixels` array is a value grid
  indexed `[x][y]`, as numpy indexes `pixels[x, y]`.
 */
module Islands {
  import opened Floats

  type Grid = seq<seq<Float>>

  /** An (x, y) index into a 2-d array. */
  datatype Pixel = Pixel(x: int, y: int)

  /** A `(value, x, y)` tuple as `map2list` and `get_pixlist` build them. */
  datatype Cell = Cell(value: Float, x: int, y: int)

  predicate IsGrid(g: Grid, w: nat, h: nat)
  {
    |g| == w && forall x :: 0 <= x < w ==> |g[x]| == h
  }

  predicate InGrid(p: Pixel, w: int, h: int)
  {
    0 <= p.x < w && 0 <= p.y < h
  }

  /** numpy's C order: by x, then by y. */
  predicate Before(x0: int, y0: int, x1: int, y1: int)
  {
    x0 < x1 || (x0 == x1 && y0 < y1)
  }

  /** (x, y) is (x0, y0) or comes after it in C order. */
  predicate AtOrAfter(x: int, y: int, x0: int, y0: int)
  {
    x > x0 || (x == x0 && y >= y0)
  }

  predicate Distinct<T(==)>(s: seq<T>)
  {
    forall i, j :: 0 <= i < j < |s| ==> s[i] != s[j]
  }

  // ---------------------------------------------------------------- map2list

  /** The cells of `g` from (x, y) on, in C order. */
  function CellsFrom(g: Grid, w: nat, h: nat, x: nat, y: nat): (r: seq<Cell>)
    requires IsGrid(g, w, h) && x <= w && y <= h
    decreases w - x, h - y
  {
    if x == w then []
    else if y == h then CellsFrom(g, w, h, x + 1, 0)
    else
      [Cell(g[x][y], x, y)] + CellsFrom(g, w, h, x, y + 1)
  }

  /** `Island.map2list`: every `(map[x, y], x, y)`, x outer, y inner. */
  function Map2List(g: Grid, w: nat, h: nat): (r: seq<Cell>)
    requires IsGrid(g, w, h)
  {
    CellsFrom(g, w, h, 0, 0)
  }

  /** `map2list` lists exactly the w*h cells, cell (x, y) at index x*h + y. */
  lemma Map2ListAt(g: Grid, w: nat, h: nat, x: nat, y: nat)
    requires IsGrid(g, w, h) && x < w && y < h
    ensures |Map2List(g, w, h)| == w * h
    ensures x * h + y < w * h
    ensures Map2List(g, w, h)[x * h + y] == Cell(g[x][y], x, y)
  {
    CellsFromLength(g, w, h, 0, 0);
    CellsFromAt(g, w, h, 0, 0, x, y, x * h + y);
  }

  lemma MulSucc(a: int, h: int)
    ensures (a + 1) * h == a * h + h
  {
  }

  lemma {:induction false} CellsFromLength(g: Grid, w: nat, h: nat, x: nat, y: nat)
    requires IsGrid(g, w, h) && x <= w && y <= h
    decreases w - x, h - y
    ensures x < w ==> |CellsFrom(g, w, h, x, y)| == (w - x) * h - y
  {
    if x == w {
    } else if y == h {
      CellsFromLength(g, w, h, x + 1, 0);
      MulSucc(w - x - 1, h);
    } else {
      CellsFromLength(g, w, h, x, y + 1);
    }
  }

  lemma {:induction false} CellsFromAt(g: Grid, w: nat, h: nat, x0: nat, y0: nat, x: nat, y: nat, k: int)
    requires IsGrid(g, w, h) && x0 < w && y0 <= h && x < w && y < h
    requires AtOrAfter(x, y, x0, y0) && k == (x - x0) * h + y - y0
    decreases w - x0, h - y0
    ensures 0 <= k < |CellsFrom(g, w, h, x0, y0)|
    ensures CellsFrom(g, w, h, x0, y0)[k] == Cell(g[x][y], x, y)
  {
    if y0 == h {
      MulSucc(x - x0 - 1, h);
      assert k == (x - (x0 + 1)) * h + y;
      CellsFromAt(g, w, h, x0 + 1, 0, x, y, k);
    } else if x == x0 && y == y0 {
      assert k == 0;
    } else {
      assert k - 1 == (x - x0) * h + y - (y0 + 1);
      CellsFromAt(g, w, h, x0, y0 + 1, x, y, k - 1);
      assert CellsFrom(g, w, h, x0, y0) == [Cell(g[x0][y0], x0, y0)] + CellsFrom(g, w, h, x0, y0 + 1);
    }
  }

  // ------------------------------------------------------------- get_pixlist

  /** The indices of `g` whose value exceeds `clip`, from (x, y) on, in C order. */
  function AboveFrom(g: Grid, w: nat, h: nat, clip: real, x: nat, y: nat): (r: seq<Pixel>)
    requires IsGrid(g, w, h) && x <= w && y <= h
    decreases w - x, h - y
    ensures forall i :: 0 <= i < |r| ==> 0 <= r[i].x < w && 0 <= r[i].y < h
  {
    if x == w then []
    else if y == h then AboveFrom(g, w, h, clip, x + 1, 0)
    else if Gt(g[x][y], clip) then [Pixel(x, y)] + AboveFrom(g, w, h, clip, x, y + 1)
    else AboveFrom(g, w, h, clip, x, y + 1)
  }

  /** From (x, y) on, `AboveFrom` lists exactly the pixels above `clip`. */
  lemma {:induction false} AboveFromMembers(g: Grid, w: nat, h: nat, clip: real, x: nat, y: nat)
    requires IsGrid(g, w, h) && x <= w && y <= h
    decreases w - x, h - y
    ensures forall p :: p in AboveFrom(g, w, h, clip, x, y) <==>
      InGrid(p, w, h) && AtOrAfter(p.x, p.y, x, y) && Gt(g[p.x][p.y], clip)
  {
    if x == w {
    } else if y == h {
      AboveFromMembers(g, w, h, clip, x + 1, 0);
    } else {
      var rest := AboveFrom(g, w, h, clip, x, y + 1);
      assert forall p :: p in rest <==>
          InGrid(p, w, h) && AtOrAfter(p.x, p.y, x, y + 1) && Gt(g[p.x][p.y], clip) by {
        AboveFromMembers(g, w, h, clip, x, y + 1);
      }
      assert AboveFrom(g, w, h, clip, x, y) == if Gt(g[x][y], clip) then [Pixel(x, y)] + rest else rest;
      forall p
        ensures p in AboveFrom(g, w, h, clip, x, y) <==>
          InGrid(p, w, h) && AtOrAfter(p.x, p.y, x, y) && Gt(g[p.x][p.y], clip)
      {
        assert AtOrAfter(p.x, p.y, x, y) <==> p == Pixel(x, y) || AtOrAfter(p.x, p.y, x, y + 1);
      }
    }
  }

  /** `AboveFrom` lists its pixels in C order. */
  lemma {:induction false} AboveFromOrdered(g: Grid, w: nat, h: nat, clip: real, x: nat, y: nat)
    requires IsGrid(g, w, h) && x <= w && y <= h
    decreases w - x, h - y
    ensures forall i, j :: 0 <= i < j < |AboveFrom(g, w, h, clip, x, y)| ==>
      Before(AboveFrom(g, w, h, clip, x, y)[i].x, AboveFrom(g, w, h, clip, x, y)[i].y,
             AboveFrom(g, w, h, clip, x, y)[j].x, AboveFrom(g, w, h, clip, x, y)[j].y)
  {
    if x == w {
    } else if y == h {
      AboveFromOrdered(g, w, h, clip, x + 1, 0);
    } else {
      var rest := AboveFrom(g, w, h, clip, x, y + 1);
      assert forall i, j :: 0 <= i < j < |rest| ==>
          Before(rest[i].x, rest[i].y, rest[j].x, rest[j].y) by {
        AboveFromOrdered(g, w, h, clip, x, y + 1);
      }
      if Gt(g[x][y], clip) {
        assert forall p :: p in rest ==> AtOrAfter(p.x, p.y, x, y + 1) by {
          AboveFromMembers(g, w, h, clip, x, y + 1);
        }
        var r := [Pixel(x, y)] + rest;
        forall i, j | 0 <= i < j < |r|
          ensures Before(r[i].x, r[i].y, r[j].x, r[j].y)
        {
          assert r[j] == rest[j - 1];
          if i > 0 {
            assert r[i] == rest[i - 1];
          } else {
            assert rest[j - 1] in rest;
          }
        }
      }
    }
  }

  /** `np.where(g > clip)`, as a list of index pairs in C order. */
  function Where(g: Grid, w: nat, h: nat, clip: real): (r: seq<Pixel>)
    requires IsGrid(g, w, h)
  {
    AboveFrom(g, w, h, clip, 0, 0)
  }

  /** `[(g[x, y], x, y) for (x, y) in ps]`. */
  function Tag(g: Grid, w: nat, h: nat, ps: seq<Pixel>): (r: seq<Cell>)
    requires IsGrid(g, w, h)
    requires forall i :: 0 <= i < |ps| ==> 0 <= ps[i].x < w && 0 <= ps[i].y < h
    ensures |r| == |ps|
    ensures forall i :: 0 <= i < |ps| ==> r[i] == Cell(g[ps[i].x][ps[i].y], ps[i].x, ps[i].y)
  {
    if ps == [] then [] else [Cell(g[ps[0].x][ps[0].y], ps[0].x, ps[0].y)] + Tag(g, w, h, ps[1..])
  }

  /** `Island.get_pixlist`. */
  function GetPixlist(g: Grid, w: nat, h: nat, clip: real): (r: seq<Cell>)
    requires IsGrid(g, w, h)
  {
    Tag(g, w, h, Where(g, w, h, clip))
  }

  /** The cells of `cs` whose value exceeds `clip`, order kept. */
  function KeepAbove(cs: seq<Cell>, clip: real): (r: seq<Cell>)
  {
    if cs == [] then []
    else (if Gt(cs[0].value, clip) then [cs[0]] else []) + KeepAbove(cs[1..], clip)
  }

  /** `get_pixlist(clip)` is `map2list` with the cells at or below `clip`
      (and the NaN cells) dropped. */
  lemma GetPixlistFiltersMap2List(g: Grid, w: nat, h: nat, clip: real)
    requires IsGrid(g, w, h)
    ensures GetPixlist(g, w, h, clip) == KeepAbove(Map2List(g, w, h), clip)
  {
    TagAboveFrom(g, w, h, clip, 0, 0);
  }

  lemma {:induction false} TagAboveFrom(g: Grid, w: nat, h: nat, clip: real, x: nat, y: nat)
    requires IsGrid(g, w, h) && x <= w && y <= h
    decreases w - x, h - y
    ensures Tag(g, w, h, AboveFrom(g, w, h, clip, x, y)) == KeepAbove(CellsFrom(g, w, h, x, y), clip)
  {
    if x == w {
    } else if y == h {
      TagAboveFrom(g, w, h, clip, x + 1, 0);
    } else {
      TagAboveFrom(g, w, h, clip, x, y + 1);
      var rest := CellsFrom(g, w, h, x, y + 1);
      var cs := [Cell(g[x][y], x, y)] + rest;
      assert cs[1..] == rest;
      if Gt(g[x][y], clip) {
        var ps := [Pixel(x, y)] + AboveFrom(g, w, h, clip, x, y + 1);
        assert ps[1..] == AboveFrom(g, w, h, clip, x, y + 1);
      }
    }
  }

  /** `get_pixlist` lists each cell above `clip` once, with its own value, in C order. */
  lemma GetPixlistMembers(g: Grid, w: nat, h: nat, clip: real)
    requires IsGrid(g, w, h)
    ensures forall c :: c in GetPixlist(g, w, h, clip) <==>
      InGrid(Pixel(c.x, c.y), w, h) && c.value == g[c.x][c.y] && Gt(c.value, clip)
    ensures forall i, j :: 0 <= i < j < |GetPixlist(g, w, h, clip)| ==>
      Before(GetPixlist(g, w, h, clip)[i].x, GetPixlist(g, w, h, clip)[i].y,
             GetPixlist(g, w, h, clip)[j].x, GetPixlist(g, w, h, clip)[j].y)
  {
    AboveFromMembers(g, w, h, clip, 0, 0);
    AboveFromOrdered(g, w, h, clip, 0, 0);
    var ps := Where(g, w, h, clip);
    var r := GetPixlist(g, w, h, clip);
    forall c: Cell | c in r
      ensures InGrid(Pixel(c.x, c.y), w, h) && c.value == g[c.x][c.y] && Gt(c.value, clip)
    {
      var i :| 0 <= i < |r| && r[i] == c;
      assert ps[i] in ps;
    }
    forall c: Cell | InGrid(Pixel(c.x, c.y), w, h) && c.value == g[c.x][c.y] && Gt(c.value, clip)
      ensures c in r
    {
      assert Pixel(c.x, c.y) in ps;
      var i :| 0 <= i < |ps| && ps[i] == Pixel(c.x, c.y);
      assert r[i] == c;
    }
  }

  // ---------------------------------------------------------------- list2map

  function Xs(ps: seq<Pixel>): (r: seq<int>)
    ensures |r| == |ps| && forall i :: 0 <= i < |ps| ==> r[i] == ps[i].x
  {
    if ps == [] then [] else [ps[0].x] + Xs(ps[1..])
  }

  function Ys(ps: seq<Pixel>): (r: seq<int>)
    ensures |r| == |ps| && forall i :: 0 <= i < |ps| ==> r[i] == ps[i].y
  {
    if ps == [] then [] else [ps[0].y] + Ys(ps[1..])
  }

  /** Python's `min` of a non-empty list. */
  function Min(s: seq<int>): (m: int)
    requires |s| > 0
    ensures m in s && forall v :: v in s ==> m <= v
  {
    if |s| == 1 then s[0]
    else
      var rest := Min(s[1..]);
      assert forall v :: v in s ==> v == s[0] || v in s[1..];
      if s[0] <= rest then s[0] else rest
  }

  /** Python's `max` of a non-empty list. */
  function Max(s: seq<int>): (m: int)
    requires |s| > 0
    ensures m in s && forall v :: v in s ==> v <= m
  {
    if |s| == 1 then s[0]
    else
      var rest := Max(s[1..]);
      assert forall v :: v in s ==> v == s[0] || v in s[1..];
      if s[0] >= rest then s[0] else rest
  }

  /** [xmin, xmax] x [ymin, ymax] is the smallest box holding every pixel of `ps`. */
  ghost predicate TightBox(ps: seq<Pixel>, xmin: int, xmax: int, ymin: int, ymax: int)
  {
    && (forall p :: p in ps ==> xmin <= p.x <= xmax && ymin <= p.y <= ymax)
    && (exists p :: p in ps && p.x == xmin)
    && (exists p :: p in ps && p.x == xmax)
    && (exists p :: p in ps && p.y == ymin)
    && (exists p :: p in ps && p.y == ymax)
  }

  lemma PrefixStep<T>(s: seq<T>, k: int, q: T)
    requires 0 <= k < |s|
    ensures q in s[..k + 1] <==> q in s[..k] || q == s[k]
  {
    assert s[..k + 1] == s[..k] + [s[k]];
  }

  /** `img[x, y]`, where the index is in range. */
  function At(img: Grid, w: nat, h: nat, x: int, y: int): (r: Float)
    requires IsGrid(img, w, h)
  {
    if 0 <= x < w && 0 <= y < h then img[x][y] else NaN
  }

  /** The extremes of the coordinates bound every pixel and are attained. */
  lemma BoundingBox(ps: seq<Pixel>)
    requires |ps| > 0
    ensures TightBox(ps, Min(Xs(ps)), Max(Xs(ps)), Min(Ys(ps)), Max(Ys(ps)))
  {
    var xs, ys := Xs(ps), Ys(ps);
    forall p | p in ps ensures Min(xs) <= p.x <= Max(xs) && Min(ys) <= p.y <= Max(ys) {
      var i :| 0 <= i < |ps| && ps[i] == p;
      assert xs[i] in xs && ys[i] in ys;
    }
    var ix :| 0 <= ix < |ps| && xs[ix] == Min(xs);
    var jx :| 0 <= jx < |ps| && xs[jx] == Max(xs);
    var iy :| 0 <= iy < |ps| && ys[iy] == Min(ys);
    var jy :| 0 <= jy < |ps| && ys[jy] == Max(ys);
    assert ps[ix] in ps && ps[jx] in ps && ps[iy] in ps && ps[jy] in ps;
  }

  /** The cells of `pixels` are NaN except those of the listed pixels, which
      hold the image's values; `pixels[0, 0]` is image pixel (xmin, ymin). */
  ghost predicate Painted(pixels: array2<Float>, img: Grid, w: nat, h: nat, ps: seq<Pixel>, xmin: int, ymin: int)
    requires IsGrid(img, w, h)
    reads pixels
  {
    forall i, j :: 0 <= i < pixels.Length0 && 0 <= j < pixels.Length1 ==>
      pixels[i, j] == if Pixel(xmin + i, ymin + j) in ps then At(img, w, h, xmin + i, ymin + j) else NaN
  }

  /** The `for` loop of `list2map`, which writes each listed pixel into the box. */
  method Paint(pixels: array2<Float>, img: Grid, w: nat, h: nat, pixlist: seq<Pixel>, xmin: int, ymin: int)
    requires IsGrid(img, w, h)
    requires forall p :: p in pixlist ==>
      0 <= p.x - xmin < pixels.Length0 && 0 <= p.y - ymin < pixels.Length1
    requires Painted(pixels, img, w, h, [], xmin, ymin)
    modifies pixels
    ensures Painted(pixels, img, w, h, pixlist, xmin, ymin)
  {
    var k := 0;
    while k < |pixlist|
      invariant 0 <= k <= |pixlist|
      invariant Painted(pixels, img, w, h, pixlist[..k], xmin, ymin)
    {
      var p := pixlist[k];
      assert p in pixlist;
      label Before:
      pixels[p.x - xmin, p.y - ymin] := At(img, w, h, p.x, p.y);
      forall i, j | 0 <= i < pixels.Length0 && 0 <= j < pixels.Length1
        ensures pixels[i, j] ==
          if Pixel(xmin + i, ymin + j) in pixlist[..k + 1] then At(img, w, h, xmin + i, ymin + j) else NaN
      {
        PrefixStep(pixlist, k, Pixel(xmin + i, ymin + j));
        if i != p.x - xmin || j != p.y - ymin {
          assert pixels[i, j] == old@Before(pixels[i, j]);
        }
      }
      k := k + 1;
    }
    assert pixlist[..k] == pixlist;
  }

  /** `Island.list2map`: copies the listed pixels of `img` into a fresh array
      spanning their bounding box; every other cell is NaN.  An empty list
      makes `min` raise in the source, and the only caller never passes one. */
  method List2Map(img: Grid, w: nat, h: nat, pixlist: seq<Pixel>)
    returns (pixels: array2<Float>, xmin: int, xmax: int, ymin: int, ymax: int)
    requires IsGrid(img, w, h)
    requires |pixlist| > 0
    requires forall p :: p in pixlist ==> 0 <= p.x < w && 0 <= p.y < h
    ensures fresh(pixels)
    ensures TightBox(pixlist, xmin, xmax, ymin, ymax)
    ensures pixels.Length0 == xmax - xmin + 1 && pixels.Length1 == ymax - ymin + 1
    ensures forall i, j :: 0 <= i < pixels.Length0 && 0 <= j < pixels.Length1 ==>
      pixels[i, j] == if Pixel(xmin + i, ymin + j) in pixlist then img[xmin + i][ymin + j] else NaN
  {
    xmin, xmax := Min(Xs(pixlist)), Max(Xs(pixlist));
    ymin, ymax := Min(Ys(pixlist)), Max(Ys(pixlist));
    assert TightBox(pixlist, xmin, xmax, ymin, ymax) by {
      BoundingBox(pixlist);
    }
    pixels := new Float[xmax - xmin + 1, ymax - ymin + 1]((i, j) => NaN);
    Paint(pixels, img, w, h, pixlist, xmin, ymin);
    forall i, j | 0 <= i < pixels.Length0 && 0 <= j < pixels.Length1 && Pixel(xmin + i, ymin + j) in pixlist
      ensures pixels[i, j] == img[xmin + i][ymin + j]
    {
      assert InGrid(Pixel(xmin + i, ymin + j), w, h);
    }
  }
}
