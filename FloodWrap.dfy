/**
  `gen_flood_wrap` (aegean.py): seed every pixel whose ratio to the rms image
  exceeds `innerclip`, flood the seeds in descending (flux, x, y) order with
  `outerclip` as the cutoff, and turn every non-empty blob into a sub-island
  with `Island.list2map`.  The status map persists across the floods, so the
  blobs are disjoint and, between floods, QUEUED and VISITED mark exactly the
  pixels already in a blob.  The generator's output is the sequence of
  sub-islands it would yield; `sys.exit(1)` under `expand` is the flag `exited`.
 */
module FloodWrap {
  import opened Options
  import opened Floats
  import opened Sorting
  import opened Islands
  import opened Segmentation
  import opened Flooding

  // ------------------------------------------------------------------ seeds

  /** `data / rmsimg`, elementwise. */
  function Ratio(data: Grid, rms: Grid, w: nat, h: nat): (r: Grid)
    requires IsGrid(data, w, h) && IsGrid(rms, w, h)
    ensures IsGrid(r, w, h)
    ensures forall x, y :: 0 <= x < w && 0 <= y < h ==> r[x][y] == Div(data[x][y], rms[x][y])
  {
    seq(w, x requires 0 <= x < w => seq(h, y requires 0 <= y < h => Div(data[x][y], rms[x][y])))
  }

  /** A seed: an image pixel whose ratio to the rms image exceeds `innerclip`. */
  predicate Seed(data: Grid, rms: Grid, w: nat, h: nat, innerclip: real, p: Pixel)
    requires IsGrid(data, w, h) && IsGrid(rms, w, h)
  {
    InGrid(p, w, h) && Gt(Div(data[p.x][p.y], rms[p.x][p.y]), innerclip)
  }

  /** Python's `<=` on the tuples `(flux, x, y)`, for fluxes that are not NaN. */
  predicate TupleLe(a: Cell, b: Cell)
  {
    Lt(a.value, b.value) || (a.value == b.value && (a.x < b.x || (a.x == b.x && a.y <= b.y)))
  }

  /** The order `sort(reverse=True)` leaves the peaks in: `a` may precede `b`. */
  predicate Descending(a: Cell, b: Cell)
  {
    TupleLe(b, a)
  }

  /** On cells whose flux is not NaN, `Descending` is a total order. */
  lemma DescendingOrder(a: Cell, b: Cell, c: Cell)
    requires !a.value.NaN? && !b.value.NaN? && !c.value.NaN?
    ensures Descending(a, b) || Descending(b, a)
    ensures Descending(a, b) && Descending(b, a) ==> a == b
    ensures Descending(a, b) && Descending(b, c) ==> Descending(a, c)
  {
    LeTotalOrder(a.value, b.value, c.value);
    LeTotalOrder(b.value, c.value, a.value);
    LeTotalOrder(c.value, a.value, b.value);
  }

  /** `peaks = [(data[x, y], x, y) for the seeds]`, in `np.where` order. */
  function SeedCells(data: Grid, rms: Grid, w: nat, h: nat, innerclip: real): (r: seq<Cell>)
    requires IsGrid(data, w, h) && IsGrid(rms, w, h)
  {
    Tag(data, w, h, Where(Ratio(data, rms, w, h), w, h, innerclip))
  }

  /** The seed cells are exactly the seeds, each tagged with its own flux,
      which is never NaN. */
  lemma SeedCellsMembers(data: Grid, rms: Grid, w: nat, h: nat, innerclip: real)
    requires IsGrid(data, w, h) && IsGrid(rms, w, h)
    ensures forall c: Cell :: c in SeedCells(data, rms, w, h, innerclip) <==>
      Seed(data, rms, w, h, innerclip, Pixel(c.x, c.y)) && c.value == data[c.x][c.y]
    ensures forall c: Cell :: c in SeedCells(data, rms, w, h, innerclip) ==> !c.value.NaN?
  {
    var g := Ratio(data, rms, w, h);
    var ps := Where(g, w, h, innerclip);
    var r := SeedCells(data, rms, w, h, innerclip);
    AboveFromMembers(g, w, h, innerclip, 0, 0);
    forall c: Cell | c in r
      ensures Seed(data, rms, w, h, innerclip, Pixel(c.x, c.y)) && c.value == data[c.x][c.y]
    {
      var i :| 0 <= i < |r| && r[i] == c;
      assert ps[i] in ps;
    }
    forall c: Cell | Seed(data, rms, w, h, innerclip, Pixel(c.x, c.y)) && c.value == data[c.x][c.y]
      ensures c in r
    {
      assert Pixel(c.x, c.y) in ps;
      var i :| 0 <= i < |ps| && ps[i] == Pixel(c.x, c.y);
      assert r[i] == c;
    }
  }

  /** `map(lambda x: x[1:], peaks)`. */
  function Strip(cs: seq<Cell>): (r: seq<Pixel>)
    ensures |r| == |cs| && forall i :: 0 <= i < |cs| ==> r[i] == Pixel(cs[i].x, cs[i].y)
  {
    seq(|cs|, i requires 0 <= i < |cs| => Pixel(cs[i].x, cs[i].y))
  }

  /** The seeds, sorted by `peaks.sort(reverse=True)` and stripped of their flux. */
  function Peaks(data: Grid, rms: Grid, w: nat, h: nat, innerclip: real): (r: seq<Pixel>)
    requires IsGrid(data, w, h) && IsGrid(rms, w, h)
  {
    var cells := SeedCells(data, rms, w, h, innerclip);
    SeedCellsOrder(data, rms, w, h, innerclip);
    Strip(Sort(Descending, cells))
  }

  /** `p` is at least as bright as `q` in the order of the sorted peaks. */
  predicate Brighter(data: Grid, w: nat, h: nat, p: Pixel, q: Pixel)
    requires IsGrid(data, w, h)
  {
    Descending(Cell(At(data, w, h, p.x, p.y), p.x, p.y), Cell(At(data, w, h, q.x, q.y), q.x, q.y))
  }

  /** On the seed cells `Descending` is total and transitive, as `Sort` needs. */
  lemma SeedCellsOrder(data: Grid, rms: Grid, w: nat, h: nat, innerclip: real)
    requires IsGrid(data, w, h) && IsGrid(rms, w, h)
    ensures TotalOn(Descending, SeedCells(data, rms, w, h, innerclip))
    ensures TransitiveOn(Descending, SeedCells(data, rms, w, h, innerclip))
  {
    var cells := SeedCells(data, rms, w, h, innerclip);
    SeedCellsMembers(data, rms, w, h, innerclip);
    forall a, b, c | a in cells && b in cells && c in cells
      ensures Descending(a, b) || Descending(b, a)
      ensures Descending(a, b) && Descending(b, c) ==> Descending(a, c)
    {
      DescendingOrder(a, b, c);
    }
  }

  /** Seed cells sorted by `Descending`, stripped, are the seeds brightest first. */
  lemma StripSorted(data: Grid, rms: Grid, w: nat, h: nat, innerclip: real, sorted: seq<Cell>)
    requires IsGrid(data, w, h) && IsGrid(rms, w, h)
    requires forall c :: c in sorted <==> Seed(data, rms, w, h, innerclip, Pixel(c.x, c.y)) && c.value == data[c.x][c.y]
    requires SortedBy(Descending, sorted)
    ensures forall p :: p in Strip(sorted) <==> Seed(data, rms, w, h, innerclip, p)
    ensures forall i, j :: 0 <= i < j < |sorted| ==> Brighter(data, w, h, Strip(sorted)[i], Strip(sorted)[j])
  {
    var r := Strip(sorted);
    forall i | 0 <= i < |r| ensures Cell(At(data, w, h, r[i].x, r[i].y), r[i].x, r[i].y) == sorted[i] {
      assert sorted[i] in sorted;
    }
    forall p ensures p in r <==> Seed(data, rms, w, h, innerclip, p) {
      if p in r {
        var i :| 0 <= i < |r| && r[i] == p;
        assert sorted[i] in sorted;
      }
      if Seed(data, rms, w, h, innerclip, p) {
        var c := Cell(data[p.x][p.y], p.x, p.y);
        assert c in sorted;
        var i :| 0 <= i < |sorted| && sorted[i] == c;
        assert r[i] == p;
      }
    }
  }

  /** The sorted peaks are exactly the seeds, brightest first. */
  lemma PeaksSpec(data: Grid, rms: Grid, w: nat, h: nat, innerclip: real)
    requires IsGrid(data, w, h) && IsGrid(rms, w, h)
    ensures forall p :: p in Peaks(data, rms, w, h, innerclip) <==> Seed(data, rms, w, h, innerclip, p)
    ensures forall i, j :: 0 <= i < j < |Peaks(data, rms, w, h, innerclip)| ==>
      Brighter(data, w, h, Peaks(data, rms, w, h, innerclip)[i], Peaks(data, rms, w, h, innerclip)[j])
  {
    var cells := SeedCells(data, rms, w, h, innerclip);
    SeedCellsOrder(data, rms, w, h, innerclip);
    var sorted := Sort(Descending, cells);
    assert Peaks(data, rms, w, h, innerclip) == Strip(sorted);
    assert forall c :: c in sorted <==> Seed(data, rms, w, h, innerclip, Pixel(c.x, c.y)) && c.value == data[c.x][c.y] by {
      SeedCellsMembers(data, rms, w, h, innerclip);
      forall c ensures c in sorted <==> c in cells {
        assert c in sorted <==> c in multiset(sorted);
      }
    }
    StripSorted(data, rms, w, h, innerclip, sorted);
  }

  // --------------------------------------------------- between two floods

  /** `p` lies in one of the blobs. */
  ghost predicate InSome(blobs: seq<seq<Pixel>>, p: Pixel)
  {
    exists k :: 0 <= k < |blobs| && p in blobs[k]
  }

  /** `p` lies in one of the first `k + 1` blobs. */
  ghost predicate Reached(blobs: seq<seq<Pixel>>, k: int, p: Pixel)
  {
    exists j :: 0 <= j <= k && j < |blobs| && p in blobs[j]
  }

  /** Between floods, VISITED marks exactly the pixels of the blobs so far, and
      QUEUED marks the same pixels. */
  ghost predicate Covers(t: seq<seq<bv8>>, w: nat, h: nat, blobs: seq<seq<Pixel>>)
    requires IsTable(t, w, h)
  {
    forall a, b :: 0 <= a < w && 0 <= b < h ==>
      (Has(t[a][b], VISITED) <==> InSome(blobs, Pixel(a, b))) &&
      (Has(t[a][b], QUEUED) <==> Has(t[a][b], VISITED))
  }

  /** No pixel is in two blobs. */
  ghost predicate Disjoint(blobs: seq<seq<Pixel>>)
  {
    forall k, l, p :: 0 <= k < l < |blobs| && p in blobs[k] ==> p !in blobs[l]
  }

  /** Blob `k` is an island: it starts at a seed, has distinct image pixels,
      each after the first passing `cutoff` and touching an earlier one, and
      every passing neighbour of its pixels lies in it or in an earlier blob. */
  ghost predicate IslandOk(data: Grid, rms: Grid, w: nat, h: nat, innerclip: real, cutoff: real,
                           blobs: seq<seq<Pixel>>, k: int)
    requires IsGrid(data, w, h) && IsGrid(rms, w, h) && 0 <= k < |blobs|
  {
    var b := blobs[k];
    && 0 < |b| && Seed(data, rms, w, h, innerclip, b[0])
    && (forall i :: 0 <= i < |b| ==> InGrid(b[i], w, h))
    && Distinct(b)
    && (forall i :: 0 < i < |b| ==> Passes(data, rms, w, h, b[i], cutoff))
    && Linked(b)
    && (forall i, n :: 0 <= i < |b| && n in Neighbours(b[i], w - 1, h - 1) && Passes(data, rms, w, h, n, cutoff)
          ==> Reached(blobs, k, n))
  }

  /** Every blob is an island. */
  ghost predicate AllIslands(data: Grid, rms: Grid, w: nat, h: nat, innerclip: real, cutoff: real,
                          blobs: seq<seq<Pixel>>)
    requires IsGrid(data, w, h) && IsGrid(rms, w, h)
  {
    forall k :: 0 <= k < |blobs| ==> IslandOk(data, rms, w, h, innerclip, cutoff, blobs, k)
  }

  /** The blobs start brightest first, each no fainter than the peaks from `t` on. */
  ghost predicate Ordered(data: Grid, w: nat, h: nat, peaks: seq<Pixel>, blobs: seq<seq<Pixel>>, t: int)
    requires IsGrid(data, w, h)
  {
    && (forall k :: 0 <= k < |blobs| ==> 0 < |blobs[k]|)
    && (forall k, l :: 0 <= k < l < |blobs| ==> Brighter(data, w, h, blobs[k][0], blobs[l][0]))
    && (forall k, q :: 0 <= k < |blobs| && 0 <= t <= q < |peaks| ==> Brighter(data, w, h, blobs[k][0], peaks[q]))
  }

  /** Each blob starts at the brightest peak that no earlier blob reached:
      its first pixel is at least as bright as every such peak. */
  ghost predicate Leading(data: Grid, w: nat, h: nat, peaks: seq<Pixel>, blobs: seq<seq<Pixel>>)
    requires IsGrid(data, w, h)
    requires forall k :: 0 <= k < |blobs| ==> 0 < |blobs[k]|
  {
    forall k, q :: 0 <= k < |blobs| && 0 <= q < |peaks| && !Reached(blobs, k - 1, peaks[q]) ==>
      Brighter(data, w, h, blobs[k][0], peaks[q])
  }

  /** The peaks before `t` have been flooded. */
  ghost predicate Flooded(t: seq<seq<bv8>>, w: nat, h: nat, peaks: seq<Pixel>, i: int)
    requires IsTable(t, w, h)
  {
    forall q :: 0 <= q < i && q < |peaks| ==> InGrid(peaks[q], w, h) && Has(t[peaks[q].x][peaks[q].y], VISITED)
  }

  /** The state of `gen_flood_wrap` after flooding the first `i` peaks. */
  ghost predicate Segmented(data: Grid, rms: Grid, w: nat, h: nat, innerclip: real, cutoff: real,
                            peaks: seq<Pixel>, t: seq<seq<bv8>>, blobs: seq<seq<Pixel>>, i: int)
    requires IsGrid(data, w, h) && IsGrid(rms, w, h) && IsTable(t, w, h)
  {
    && 0 <= |blobs| <= i <= |peaks|
    && Covers(t, w, h, blobs)
    && Flooded(t, w, h, peaks, i)
    && Disjoint(blobs)
    && AllIslands(data, rms, w, h, innerclip, cutoff, blobs)
    && Ordered(data, w, h, peaks, blobs, i)
    && Leading(data, w, h, peaks, blobs)
  }

  /** The sorted peaks, as `PeaksSpec` describes them. */
  ghost predicate PeaksOk(data: Grid, rms: Grid, w: nat, h: nat, innerclip: real, peaks: seq<Pixel>)
    requires IsGrid(data, w, h) && IsGrid(rms, w, h)
  {
    && (forall q :: 0 <= q < |peaks| ==> Seed(data, rms, w, h, innerclip, peaks[q]))
    && (forall q, r :: 0 <= q < r < |peaks| ==> Brighter(data, w, h, peaks[q], peaks[r]))
  }

  /** A byte keeps the bits it had once they only grow. */
  lemma GrowsKeeps(s: bv8, t: bv8)
    requires Grows(s, t)
    ensures Has(s, QUEUED) ==> Has(t, QUEUED)
    ensures Has(s, VISITED) ==> Has(t, VISITED)
  {
  }

  /** A new blob: VISITED and QUEUED now mark the old blobs and the new one. */
  lemma CoversGrows(data: Grid, rms: Grid, w: nat, h: nat, cutoff: real, peak: Pixel,
                    t0: seq<seq<bv8>>, t1: seq<seq<bv8>>, blobs: seq<seq<Pixel>>, blob: seq<Pixel>)
    requires IsGrid(data, w, h) && IsGrid(rms, w, h) && IsTable(t0, w, h) && IsTable(t1, w, h)
    requires InGrid(peak, w, h) && Covers(t0, w, h, blobs)
    requires FloodSpec(data, rms, w, h, w - 1, h - 1, cutoff, peak, t0, t1, blob)
    ensures Covers(t1, w, h, blobs + [blob])
  {
    var bs := blobs + [blob];
    forall a, b | 0 <= a < w && 0 <= b < h
      ensures Has(t1[a][b], VISITED) <==> InSome(bs, Pixel(a, b))
      ensures Has(t1[a][b], QUEUED) <==> Has(t1[a][b], VISITED)
    {
      GrowsKeeps(t0[a][b], t1[a][b]);
      var p := Pixel(a, b);
      if InSome(blobs, p) {
        var k :| 0 <= k < |blobs| && p in blobs[k];
        assert bs[k] == blobs[k];
      }
      if InSome(bs, p) && p !in blob {
        var k :| 0 <= k < |bs| && p in bs[k];
        assert k < |blobs| && bs[k] == blobs[k];
      }
      assert bs[|blobs|] == blob;
    }
  }

  /** After flooding peak `i`, it is VISITED, and so are the earlier ones. */
  lemma FloodedGrows(data: Grid, rms: Grid, w: nat, h: nat, cutoff: real, peaks: seq<Pixel>, i: int,
                     t0: seq<seq<bv8>>, t1: seq<seq<bv8>>, blob: seq<Pixel>)
    requires IsGrid(data, w, h) && IsGrid(rms, w, h) && IsTable(t0, w, h) && IsTable(t1, w, h)
    requires 0 <= i < |peaks| && InGrid(peaks[i], w, h) && Flooded(t0, w, h, peaks, i)
    requires FloodSpec(data, rms, w, h, w - 1, h - 1, cutoff, peaks[i], t0, t1, blob)
    ensures Flooded(t1, w, h, peaks, i + 1)
  {
    var p := peaks[i];
    if !Has(t0[p.x][p.y], VISITED) {
      assert p in blob;
    }
  }

  /** A new blob holds no pixel that was VISITED, hence none of an earlier blob. */
  lemma DisjointGrows(data: Grid, rms: Grid, w: nat, h: nat, cutoff: real, peak: Pixel,
                      t0: seq<seq<bv8>>, t1: seq<seq<bv8>>, blobs: seq<seq<Pixel>>, blob: seq<Pixel>)
    requires IsGrid(data, w, h) && IsGrid(rms, w, h) && IsTable(t0, w, h) && IsTable(t1, w, h)
    requires InGrid(peak, w, h) && Covers(t0, w, h, blobs) && Disjoint(blobs)
    requires FloodSpec(data, rms, w, h, w - 1, h - 1, cutoff, peak, t0, t1, blob)
    ensures Disjoint(blobs + [blob])
  {
    var bs := blobs + [blob];
    assert forall j :: 0 <= j < |blob| ==> !InSome(blobs, blob[j]) by {
      forall j | 0 <= j < |blob| ensures !InSome(blobs, blob[j]) {
        assert InGrid(blob[j], w, h);
      }
    }
    forall k, l, p | 0 <= k < l < |bs| && p in bs[k] ensures p !in bs[l] {
      assert bs[k] == blobs[k];
      if l < |blobs| {
        assert bs[l] == blobs[l];
      } else {
        assert InSome(blobs, p);
      }
    }
  }

  /** An island stays one when a blob is appended after it. */
  lemma IslandKept(data: Grid, rms: Grid, w: nat, h: nat, innerclip: real, cutoff: real,
                   blobs: seq<seq<Pixel>>, blob: seq<Pixel>, k: int)
    requires IsGrid(data, w, h) && IsGrid(rms, w, h) && 0 <= k < |blobs|
    requires IslandOk(data, rms, w, h, innerclip, cutoff, blobs, k)
    ensures IslandOk(data, rms, w, h, innerclip, cutoff, blobs + [blob], k)
  {
    var bs := blobs + [blob];
    assert bs[k] == blobs[k];
    var b := blobs[k];
    forall i, n | 0 <= i < |b| && n in Neighbours(b[i], w - 1, h - 1) && Passes(data, rms, w, h, n, cutoff)
      ensures Reached(bs, k, n)
    {
      assert Reached(blobs, k, n);
      var j :| 0 <= j <= k && j < |blobs| && n in blobs[j];
      assert bs[j] == blobs[j];
    }
  }

  /** A non-empty blob flooded from a seed is an island: its passing neighbours
      outside it were QUEUED or VISITED, so lie in an earlier blob. */
  lemma IslandNew(data: Grid, rms: Grid, w: nat, h: nat, innerclip: real, cutoff: real, peak: Pixel,
                  t0: seq<seq<bv8>>, t1: seq<seq<bv8>>, blobs: seq<seq<Pixel>>, blob: seq<Pixel>)
    requires IsGrid(data, w, h) && IsGrid(rms, w, h) && IsTable(t0, w, h) && IsTable(t1, w, h)
    requires Seed(data, rms, w, h, innerclip, peak) && Covers(t0, w, h, blobs) && blob != []
    requires FloodSpec(data, rms, w, h, w - 1, h - 1, cutoff, peak, t0, t1, blob)
    ensures IslandOk(data, rms, w, h, innerclip, cutoff, blobs + [blob], |blobs|)
  {
    var bs := blobs + [blob];
    var k := |blobs|;
    assert bs[k] == blob;
    forall i, n | 0 <= i < |blob| && n in Neighbours(blob[i], w - 1, h - 1) && Passes(data, rms, w, h, n, cutoff)
      ensures Reached(bs, k, n)
    {
      if n !in blob {
        assert InSome(blobs, n);
        var j :| 0 <= j < |blobs| && n in blobs[j];
        assert bs[j] == blobs[j];
      }
    }
  }

  /** Every blob is an island after a new one is appended. */
  lemma IslandsGrow(data: Grid, rms: Grid, w: nat, h: nat, innerclip: real, cutoff: real, peak: Pixel,
                    t0: seq<seq<bv8>>, t1: seq<seq<bv8>>, blobs: seq<seq<Pixel>>, blob: seq<Pixel>)
    requires IsGrid(data, w, h) && IsGrid(rms, w, h) && IsTable(t0, w, h) && IsTable(t1, w, h)
    requires Seed(data, rms, w, h, innerclip, peak) && Covers(t0, w, h, blobs) && blob != []
    requires AllIslands(data, rms, w, h, innerclip, cutoff, blobs)
    requires FloodSpec(data, rms, w, h, w - 1, h - 1, cutoff, peak, t0, t1, blob)
    ensures AllIslands(data, rms, w, h, innerclip, cutoff, blobs + [blob])
  {
    forall k | 0 <= k < |blobs| + 1 ensures IslandOk(data, rms, w, h, innerclip, cutoff, blobs + [blob], k) {
      if k < |blobs| {
        IslandKept(data, rms, w, h, innerclip, cutoff, blobs, blob, k);
      } else {
        IslandNew(data, rms, w, h, innerclip, cutoff, peak, t0, t1, blobs, blob);
      }
    }
  }

  /** A blob flooded from peak `i` starts no brighter than the earlier blobs
      and no fainter than the later peaks. */
  lemma OrderedGrows(data: Grid, rms: Grid, w: nat, h: nat, innerclip: real, peaks: seq<Pixel>,
                     blobs: seq<seq<Pixel>>, blob: seq<Pixel>, i: int)
    requires IsGrid(data, w, h) && IsGrid(rms, w, h) && PeaksOk(data, rms, w, h, innerclip, peaks)
    requires 0 <= i < |peaks| && Ordered(data, w, h, peaks, blobs, i)
    requires blob != [] && blob[0] == peaks[i]
    ensures Ordered(data, w, h, peaks, blobs + [blob], i + 1)
  {
    var bs := blobs + [blob];
    forall k | 0 <= k < |bs| ensures 0 < |bs[k]| {
      if k < |blobs| { assert bs[k] == blobs[k]; }
    }
    forall k, l | 0 <= k < l < |bs| ensures Brighter(data, w, h, bs[k][0], bs[l][0]) {
      assert bs[k] == blobs[k];
      if l < |blobs| { assert bs[l] == blobs[l]; }
    }
    forall k, q | 0 <= k < |bs| && 0 <= i + 1 <= q < |peaks| ensures Brighter(data, w, h, bs[k][0], peaks[q]) {
      if k < |blobs| { assert bs[k] == blobs[k]; }
    }
  }

  /** Reaching a pixel through the first `k + 1` blobs does not depend on
      blobs appended later. */
  lemma ReachedKept(blobs: seq<seq<Pixel>>, blob: seq<Pixel>, k: int, p: Pixel)
    requires k < |blobs|
    ensures Reached(blobs + [blob], k, p) <==> Reached(blobs, k, p)
  {
    var bs := blobs + [blob];
    if Reached(bs, k, p) {
      var j :| 0 <= j <= k && j < |bs| && p in bs[j];
      assert bs[j] == blobs[j];
    }
    if Reached(blobs, k, p) {
      var j :| 0 <= j <= k && j < |blobs| && p in blobs[j];
      assert bs[j] == blobs[j];
    }
  }

  /** A blob flooded from peak `i` starts at the brightest peak no earlier
      blob reached: the peaks before `i` are VISITED, hence in earlier blobs,
      and the peaks from `i` on are no brighter than peak `i`. */
  lemma LeadingGrows(data: Grid, rms: Grid, w: nat, h: nat, innerclip: real, peaks: seq<Pixel>,
                     t0: seq<seq<bv8>>, blobs: seq<seq<Pixel>>, blob: seq<Pixel>, i: int)
    requires IsGrid(data, w, h) && IsGrid(rms, w, h) && IsTable(t0, w, h)
    requires PeaksOk(data, rms, w, h, innerclip, peaks) && 0 <= i < |peaks|
    requires Covers(t0, w, h, blobs) && Flooded(t0, w, h, peaks, i)
    requires forall k :: 0 <= k < |blobs| ==> 0 < |blobs[k]|
    requires Leading(data, w, h, peaks, blobs)
    requires blob != [] && blob[0] == peaks[i]
    ensures forall k :: 0 <= k < |blobs + [blob]| ==> 0 < |(blobs + [blob])[k]|
    ensures Leading(data, w, h, peaks, blobs + [blob])
  {
    var bs := blobs + [blob];
    assert forall k :: 0 <= k < |blobs| ==> bs[k] == blobs[k];
    forall q | 0 <= q < i ensures Reached(bs, |blobs| - 1, peaks[q]) {
      var p := peaks[q];
      assert Has(t0[p.x][p.y], VISITED);
      assert InSome(blobs, p);
      var j :| 0 <= j < |blobs| && p in blobs[j];
      assert bs[j] == blobs[j];
    }
    forall k, q | 0 <= k < |bs| && 0 <= q < |peaks| && !Reached(bs, k - 1, peaks[q])
      ensures Brighter(data, w, h, bs[k][0], peaks[q])
    {
      if k < |blobs| {
        ReachedKept(blobs, blob, k - 1, peaks[q]);
      } else {
        assert bs[k] == blob;
        assert i <= q;
      }
    }
  }

  /** One pass of the loop over the peaks keeps `Segmented`. */
  lemma Segments(data: Grid, rms: Grid, w: nat, h: nat, innerclip: real, cutoff: real, peaks: seq<Pixel>,
                 t0: seq<seq<bv8>>, t1: seq<seq<bv8>>, blobs: seq<seq<Pixel>>, blob: seq<Pixel>, i: int)
    requires IsGrid(data, w, h) && IsGrid(rms, w, h) && IsTable(t0, w, h) && IsTable(t1, w, h)
    requires PeaksOk(data, rms, w, h, innerclip, peaks) && i < |peaks|
    requires Segmented(data, rms, w, h, innerclip, cutoff, peaks, t0, blobs, i)
    requires FloodSpec(data, rms, w, h, w - 1, h - 1, cutoff, peaks[i], t0, t1, blob)
    ensures Segmented(data, rms, w, h, innerclip, cutoff, peaks, t1,
                      if |blob| >= 1 then blobs + [blob] else blobs, i + 1)
  {
    var peak := peaks[i];
    FloodedGrows(data, rms, w, h, cutoff, peaks, i, t0, t1, blob);
    if |blob| >= 1 {
      CoversGrows(data, rms, w, h, cutoff, peak, t0, t1, blobs, blob);
      DisjointGrows(data, rms, w, h, cutoff, peak, t0, t1, blobs, blob);
      IslandsGrow(data, rms, w, h, innerclip, cutoff, peak, t0, t1, blobs, blob);
      assert blob[0] == peak;
      OrderedGrows(data, rms, w, h, innerclip, peaks, blobs, blob, i);
      LeadingGrows(data, rms, w, h, innerclip, peaks, t0, blobs, blob, i);
    }
  }

  // --------------------------------------------------------- the generator

  /** A sub-island as `gen_flood_wrap` yields it: `list2map` of one blob. */
  datatype SubIsland = SubIsland(pixels: array2<Float>, xmin: int, xmax: int, ymin: int, ymax: int)

  /** `isle` is `list2map` of `blob` over `img`: the blob's tight bounding box,
      holding the blob's values and NaN elsewhere. */
  ghost predicate Cut(isle: SubIsland, img: Grid, w: nat, h: nat, blob: seq<Pixel>)
    requires IsGrid(img, w, h)
    reads isle.pixels
  {
    && TightBox(blob, isle.xmin, isle.xmax, isle.ymin, isle.ymax)
    && isle.pixels.Length0 == isle.xmax - isle.xmin + 1
    && isle.pixels.Length1 == isle.ymax - isle.ymin + 1
    && forall i, j :: 0 <= i < isle.pixels.Length0 && 0 <= j < isle.pixels.Length1 ==>
         isle.pixels[i, j] ==
           if Pixel(isle.xmin + i, isle.ymin + j) in blob then At(img, w, h, isle.xmin + i, isle.ymin + j) else NaN
  }

  /** Each sub-island is cut from its blob. */
  ghost predicate Cuts(isles: seq<SubIsland>, img: Grid, w: nat, h: nat, blobs: seq<seq<Pixel>>)
    requires IsGrid(img, w, h)
    reads set k | 0 <= k < |isles| :: isles[k].pixels
  {
    |isles| == |blobs| && forall k :: 0 <= k < |isles| ==> Cut(isles[k], img, w, h, blobs[k])
  }

  /** `data.list2map(blob)`, packed as the generator yields it. */
  method Yield(img: Grid, w: nat, h: nat, blob: seq<Pixel>) returns (isle: SubIsland)
    requires IsGrid(img, w, h) && blob != []
    requires forall i :: 0 <= i < |blob| ==> InGrid(blob[i], w, h)
    ensures fresh(isle.pixels) && Cut(isle, img, w, h, blob)
  {
    var pixels, xmin, xmax, ymin, ymax := List2Map(img, w, h, blob);
    isle := SubIsland(pixels, xmin, xmax, ymin, ymax);
  }

  /** Appending a fresh sub-island keeps the earlier ones as they were. */
  lemma CutsGrow(isles: seq<SubIsland>, img: Grid, w: nat, h: nat, blobs: seq<seq<Pixel>>,
                 isle: SubIsland, blob: seq<Pixel>)
    requires IsGrid(img, w, h) && Cuts(isles, img, w, h, blobs) && Cut(isle, img, w, h, blob)
    ensures Cuts(isles + [isle], img, w, h, blobs + [blob])
  {
    var ys, bs := isles + [isle], blobs + [blob];
    forall k | 0 <= k < |ys| ensures Cut(ys[k], img, w, h, bs[k]) {
      if k < |isles| {
        assert ys[k] == isles[k] && bs[k] == blobs[k];
      }
    }
  }

  /** `outerclip` defaults to `innerclip`. */
  function OuterClip(innerclip: real, outerclip: Option<real>): (r: real)
    ensures outerclip.Some? ==> r == outerclip.value
    ensures outerclip.None? ==> r == innerclip
  {
    if outerclip.None? then innerclip else outerclip.value
  }

  /** A non-empty seed list has a non-empty sorted peak list. */
  lemma SomePeak(data: Grid, rms: Grid, w: nat, h: nat, innerclip: real)
    requires IsGrid(data, w, h) && IsGrid(rms, w, h)
    requires Where(Ratio(data, rms, w, h), w, h, innerclip) != []
    ensures Peaks(data, rms, w, h, innerclip) != []
    ensures PeaksOk(data, rms, w, h, innerclip, Peaks(data, rms, w, h, innerclip))
  {
    var g := Ratio(data, rms, w, h);
    AboveFromMembers(g, w, h, innerclip, 0, 0);
    PeaksSpec(data, rms, w, h, innerclip);
    var p := Where(g, w, h, innerclip)[0];
    assert p in Where(g, w, h, innerclip);
    assert p in Peaks(data, rms, w, h, innerclip);
    var peaks := Peaks(data, rms, w, h, innerclip);
    forall q | 0 <= q < |peaks| ensures Seed(data, rms, w, h, innerclip, peaks[q]) {
      assert peaks[q] in peaks;
    }
  }

  /** No pixel is QUEUED or VISITED before the first flood. */
  lemma Fresh(data: Grid, rms: Grid, w: nat, h: nat, innerclip: real, cutoff: real,
              peaks: seq<Pixel>, t: seq<seq<bv8>>)
    requires IsGrid(data, w, h) && IsGrid(rms, w, h) && IsTable(t, w, h)
    requires forall a, b :: 0 <= a < w && 0 <= b < h ==> t[a][b] == 0 || t[a][b] == PEAKED
    ensures Segmented(data, rms, w, h, innerclip, cutoff, peaks, t, [], 0)
  {
  }

  /** Every seed lies in a blob once all peaks are flooded. */
  lemma AllSeeded(data: Grid, rms: Grid, w: nat, h: nat, innerclip: real, cutoff: real,
                  peaks: seq<Pixel>, t: seq<seq<bv8>>, blobs: seq<seq<Pixel>>)
    requires IsGrid(data, w, h) && IsGrid(rms, w, h) && IsTable(t, w, h)
    requires peaks == Peaks(data, rms, w, h, innerclip)
    requires Segmented(data, rms, w, h, innerclip, cutoff, peaks, t, blobs, |peaks|)
    ensures forall p :: Seed(data, rms, w, h, innerclip, p) ==> InSome(blobs, p)
  {
    PeaksSpec(data, rms, w, h, innerclip);
    forall p | Seed(data, rms, w, h, innerclip, p) ensures InSome(blobs, p) {
      var q :| 0 <= q < |peaks| && peaks[q] == p;
    }
  }

  /** Since every seed is a peak, each blob starts at a pixel at least as
      bright as every seed that no earlier blob reached. */
  lemma SeedsLead(data: Grid, rms: Grid, w: nat, h: nat, innerclip: real,
                  peaks: seq<Pixel>, blobs: seq<seq<Pixel>>)
    requires IsGrid(data, w, h) && IsGrid(rms, w, h)
    requires peaks == Peaks(data, rms, w, h, innerclip)
    requires forall k :: 0 <= k < |blobs| ==> 0 < |blobs[k]|
    requires Leading(data, w, h, peaks, blobs)
    ensures forall k, p :: 0 <= k < |blobs| && Seed(data, rms, w, h, innerclip, p) && !Reached(blobs, k - 1, p) ==>
      Brighter(data, w, h, blobs[k][0], p)
  {
    PeaksSpec(data, rms, w, h, innerclip);
    forall k, p | 0 <= k < |blobs| && Seed(data, rms, w, h, innerclip, p) && !Reached(blobs, k - 1, p)
      ensures Brighter(data, w, h, blobs[k][0], p)
    {
      var q :| 0 <= q < |peaks| && peaks[q] == p;
    }
  }

  /** The sub-islands' arrays were allocated by the generator, apart from `status`. */
  ghost predicate Apart(isles: seq<SubIsland>, status: array2<bv8>)
  {
    forall k :: 0 <= k < |isles| ==> isles[k].pixels as object != status
  }

  lemma ApartGrows(isles: seq<SubIsland>, isle: SubIsland, status: array2<bv8>)
    requires Apart(isles, status) && isle.pixels as object != status
    ensures Apart(isles + [isle], status)
  {
  }

  /** Cuts the sub-island of `blob` and appends it to those yielded so far. */
  method Emit(img: Grid, w: nat, h: nat, isles: seq<SubIsland>, ghost blobs: seq<seq<Pixel>>,
              blob: seq<Pixel>, ghost status: array2<bv8>)
    returns (isles': seq<SubIsland>)
    requires IsGrid(img, w, h) && blob != [] && forall i :: 0 <= i < |blob| ==> InGrid(blob[i], w, h)
    requires Cuts(isles, img, w, h, blobs) && Apart(isles, status)
    ensures Cuts(isles', img, w, h, blobs + [blob]) && Apart(isles', status)
  {
    var isle := Yield(img, w, h, blob);
    CutsGrow(isles, img, w, h, blobs, isle, blob);
    ApartGrows(isles, isle, status);
    isles' := isles + [isle];
  }

  /** `flood` peak `i`; the sub-islands cut so far are left as they were. */
  method FloodPeak(data: Grid, rms: Grid, w: nat, h: nat, innerclip: real, cutoff: real, peaks: seq<Pixel>,
                   status: array2<bv8>, ghost t: seq<seq<bv8>>,
                   ghost blobs: seq<seq<Pixel>>, i: nat)
    returns (blob: seq<Pixel>, ghost t1: seq<seq<bv8>>)
    requires IsGrid(data, w, h) && IsGrid(rms, w, h) && status.Length0 == w && status.Length1 == h
    requires PeaksOk(data, rms, w, h, innerclip, peaks) && i < |peaks|
    requires t == Snapshot(status) && Segmented(data, rms, w, h, innerclip, cutoff, peaks, t, blobs, i)
    modifies status
    ensures t1 == Snapshot(status)
    ensures Segmented(data, rms, w, h, innerclip, cutoff, peaks, t1, if |blob| >= 1 then blobs + [blob] else blobs, i + 1)
    ensures blobs == [] ==> |blob| >= 1
    ensures forall j :: 0 <= j < |blob| ==> InGrid(blob[j], w, h)
  {
    assert InGrid(peaks[i], w, h);
    assert blobs == [] ==> !Has(t[peaks[i].x][peaks[i].y], VISITED);
    blob := Flood(data, rms, w, h, status, w - 1, h - 1, peaks[i], cutoff);
    t1 := Snapshot(status);
    Segments(data, rms, w, h, innerclip, cutoff, peaks, t, t1, blobs, blob, i);
  }

  /** The loop of `gen_flood_wrap` over the sorted peaks, from a status map in
      which no pixel is QUEUED or VISITED. */
  method FloodAll(data: Grid, rms: Grid, w: nat, h: nat, innerclip: real, cutoff: real, peaks: seq<Pixel>,
                  status: array2<bv8>, ghost t0: seq<seq<bv8>>, expand: bool)
    returns (isles: seq<SubIsland>, exited: bool, ghost blobs: seq<seq<Pixel>>, ghost t: seq<seq<bv8>>)
    requires IsGrid(data, w, h) && IsGrid(rms, w, h) && status.Length0 == w && status.Length1 == h
    requires PeaksOk(data, rms, w, h, innerclip, peaks)
    requires t0 == Snapshot(status) && Segmented(data, rms, w, h, innerclip, cutoff, peaks, t0, [], 0)
    modifies status
    ensures exited <==> expand && peaks != []
    ensures exited ==> isles == [] && blobs == []
    ensures t == Snapshot(status)
    ensures !exited ==> Segmented(data, rms, w, h, innerclip, cutoff, peaks, t, blobs, |peaks|)
    ensures Cuts(isles, data, w, h, blobs)
  {
    isles, exited, blobs, t := [], false, [], t0;
    var i := 0;
    while i < |peaks|
      invariant t == Snapshot(status)
      invariant Segmented(data, rms, w, h, innerclip, cutoff, peaks, t, blobs, i)
      invariant Cuts(isles, data, w, h, blobs)
      invariant Apart(isles, status)
      invariant expand ==> i == 0 && blobs == []
    {
      var blob;
      blob, t := FloodPeak(data, rms, w, h, innerclip, cutoff, peaks, status, t, blobs, i);
      if |blob| >= 1 {
        if expand {
          isles, exited, blobs := [], true, [];
          return;
        }
        isles := Emit(data, w, h, isles, blobs, blob, status);
        blobs := blobs + [blob];
      }
      i := i + 1;
    }
  }

  /** `gen_flood_wrap(data, rmsimg, innerclip, outerclip, expand)`: the
      sub-islands it yields, in order, and whether it called `sys.exit`;
      `blobs` are the pixel lists the sub-islands were cut from. */
  method GenFloodWrap(data: Grid, rms: Grid, w: nat, h: nat, innerclip: real, outerclip: Option<real>, expand: bool)
    returns (isles: seq<SubIsland>, exited: bool, ghost blobs: seq<seq<Pixel>>)
    requires IsGrid(data, w, h) && IsGrid(rms, w, h)
    ensures Where(Ratio(data, rms, w, h), w, h, innerclip) == [] ==> isles == [] && !exited
    ensures exited <==> expand && Where(Ratio(data, rms, w, h), w, h, innerclip) != []
    ensures exited ==> isles == []
    ensures Disjoint(blobs)
    ensures AllIslands(data, rms, w, h, innerclip, OuterClip(innerclip, outerclip), blobs)
    ensures Cuts(isles, data, w, h, blobs)
    ensures forall k :: 0 <= k < |blobs| ==> blobs[k] != []
    ensures forall k, l :: 0 <= k < l < |blobs| ==> Brighter(data, w, h, blobs[k][0], blobs[l][0])
    ensures !exited ==> forall p :: Seed(data, rms, w, h, innerclip, p) ==> InSome(blobs, p)
    ensures forall k, p :: 0 <= k < |blobs| && Seed(data, rms, w, h, innerclip, p) && !Reached(blobs, k - 1, p) ==>
      Brighter(data, w, h, blobs[k][0], p)
  {
    var cutoff := OuterClip(innerclip, outerclip);
    var ratio := Ratio(data, rms, w, h);
    var status := new bv8[w, h]((a, b) requires 0 <= a < w && 0 <= b < h =>
      if Gt(ratio[a][b], innerclip) then PEAKED else 0);
    isles, exited, blobs := [], false, [];
    var seeds := Where(ratio, w, h, innerclip);
    if |seeds| == 0 {
      AboveFromMembers(ratio, w, h, innerclip, 0, 0);
      return;
    }
    var peaks := Peaks(data, rms, w, h, innerclip);
    SomePeak(data, rms, w, h, innerclip);
    ghost var t := Snapshot(status);
    Fresh(data, rms, w, h, innerclip, cutoff, peaks, t);
    isles, exited, blobs, t := FloodAll(data, rms, w, h, innerclip, cutoff, peaks, status, t, expand);
    if !exited {
      AllSeeded(data, rms, w, h, innerclip, cutoff, peaks, t, blobs);
      SeedsLead(data, rms, w, h, innerclip, peaks, blobs);
    }
  }
}
