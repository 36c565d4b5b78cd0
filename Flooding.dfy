/**
  aegean.py `flood`: a breadth-first walk from a peak over a queue that grows
  while it is read, marking QUEUED and VISITED in the shared status map.

  The walk is proved against a ghost copy `s0` of the status map taken when
  the walk starts: at every step each status byte is its `s0` byte with
  QUEUED OR-ed in for the queued pixels and VISITED for the blob's pixels
  (`Marked`); the rest of the bookkeeping is about sequences only (`Walk`,
  `Tracked`) and is carried from step to step by the lemmas `Skipped` and
  `Absorbed`.
 */
module Flooding {
  import opened Floats
  import opened Islands
  import opened Segmentation

  // ------------------------------------------------------------ status bytes

  /** A copy of a status map's bytes, indexed `[x][y]`. */
  predicate IsTable(s: seq<seq<bv8>>, w: nat, h: nat)
  {
    |s| == w && forall a :: 0 <= a < w ==> |s[a]| == h
  }

  ghost function Snapshot(status: array2<bv8>): (s: seq<seq<bv8>>)
    reads status
    ensures IsTable(s, status.Length0, status.Length1)
    ensures forall a, b :: 0 <= a < status.Length0 && 0 <= b < status.Length1 ==> s[a][b] == status[a, b]
  {
    seq(status.Length0, a reads status =>
      seq(status.Length1, b reads status =>
        if 0 <= a < status.Length0 && 0 <= b < status.Length1 then status[a, b] else 0))
  }

  /** Byte `s` with QUEUED OR-ed in when `q` and VISITED when `v`. */
  function Mark(s: bv8, q: bool, v: bool): bv8
  {
    s | (if q then QUEUED else 0) | (if v then VISITED else 0)
  }

  /** What marking does to the three flags, and that marking twice is marking once. */
  lemma MarkBits(s: bv8, q: bool, v: bool)
    ensures Has(Mark(s, q, v), QUEUED) <==> Has(s, QUEUED) || q
    ensures Has(Mark(s, q, v), VISITED) <==> Has(s, VISITED) || v
    ensures Has(Mark(s, q, v), PEAKED) <==> Has(s, PEAKED)
    ensures Grows(s, Mark(s, q, v))
    ensures Mark(s, q, v) | QUEUED == Mark(s, true, v)
    ensures Mark(s, q, v) | VISITED == Mark(s, q, true)
    ensures Mark(s, false, false) == s
  {
  }

  /** Every status byte is its `s0` byte marked by the queue and the blob. */
  ghost predicate Marked(status: array2<bv8>, w: nat, h: nat, s0: seq<seq<bv8>>,
                         queue: seq<Pixel>, blob: seq<Pixel>)
    requires status.Length0 == w && status.Length1 == h && IsTable(s0, w, h)
    reads status
  {
    forall a, b :: 0 <= a < w && 0 <= b < h ==>
      status[a, b] == Mark(s0[a][b], Pixel(a, b) in queue, Pixel(a, b) in blob)
  }

  /** Between walks every QUEUED pixel has been VISITED and the reverse. */
  ghost predicate Settled(status: array2<bv8>)
    reads status
  {
    forall a, b :: 0 <= a < status.Length0 && 0 <= b < status.Length1 ==>
      (Has(status[a, b], QUEUED) <==> Has(status[a, b], VISITED))
  }

  // ------------------------------------------------------------ the walk

  /** The queue starts at the peak and holds distinct in-image pixels, each
      after the peak passing the cutoff. */
  ghost predicate QueueOk(data: Grid, rms: Grid, w: nat, h: nat, cutoff: real, peak: Pixel, queue: seq<Pixel>)
    requires IsGrid(data, w, h) && IsGrid(rms, w, h)
  {
    && 0 < |queue| && queue[0] == peak
    && (forall k :: 0 <= k < |queue| ==> InGrid(queue[k], w, h))
    && Distinct(queue)
    && (forall k :: 1 <= k < |queue| ==> Passes(data, rms, w, h, queue[k], cutoff))
  }

  /** No queue entry after the peak was QUEUED when the walk started. */
  ghost predicate NewlyQueued(w: nat, h: nat, s0: seq<seq<bv8>>, queue: seq<Pixel>)
    requires IsTable(s0, w, h)
  {
    forall k :: 1 <= k < |queue| ==> InGrid(queue[k], w, h) && !Has(s0[queue[k].x][queue[k].y], QUEUED)
  }

  /** Each queue entry after the peak was queued by exploring the blob pixel
      `src[k]`, which it touches. */
  ghost predicate Sourced(queue: seq<Pixel>, blob: seq<Pixel>, src: seq<int>)
  {
    && |src| == |queue|
    && (forall k :: 1 <= k < |queue| ==> 0 <= src[k] < |blob| && Adjacent(blob[src[k]], queue[k]))
  }

  /** The blob is drawn from the queue, has no repeats, and each pixel after
      the first passed the cutoff and touches an earlier one. */
  ghost predicate BlobOk(data: Grid, rms: Grid, w: nat, h: nat, cutoff: real, queue: seq<Pixel>, blob: seq<Pixel>)
    requires IsGrid(data, w, h) && IsGrid(rms, w, h)
  {
    && (forall k :: 0 <= k < |blob| ==> blob[k] in queue)
    && Distinct(blob)
    && (forall k :: 0 < k < |blob| ==> Passes(data, rms, w, h, blob[k], cutoff))
    && Linked(blob)
  }

  /** Pixel `k` of the blob touches an earlier one. */
  ghost predicate Touches(blob: seq<Pixel>, k: int)
    requires 0 <= k < |blob|
  {
    exists j :: 0 <= j < k && Adjacent(blob[j], blob[k])
  }

  /** Each pixel after the first touches an earlier one. */
  ghost predicate Linked(blob: seq<Pixel>)
  {
    forall k :: 0 < k < |blob| ==> Touches(blob, k)
  }

  /** `i` queue entries have been read; once one has, the blob starts at the peak. */
  ghost predicate Progress(peak: Pixel, queue: seq<Pixel>, blob: seq<Pixel>, i: int)
  {
    0 <= i <= |queue| && |blob| <= i && (i > 0 ==> 0 < |blob| && blob[0] == peak)
  }

  /** The peak and the blob's pixels were not VISITED when the walk started. */
  ghost predicate Unvisited(w: nat, h: nat, s0: seq<seq<bv8>>, peak: Pixel, blob: seq<Pixel>)
    requires IsTable(s0, w, h)
  {
    && InGrid(peak, w, h) && !Has(s0[peak.x][peak.y], VISITED)
    && (forall k :: 0 <= k < |blob| ==> InGrid(blob[k], w, h) && !Has(s0[blob[k].x][blob[k].y], VISITED))
  }

  /** Every queue entry read so far is in the blob unless it was VISITED already. */
  ghost predicate ReadIn(w: nat, h: nat, s0: seq<seq<bv8>>, queue: seq<Pixel>, blob: seq<Pixel>, i: int)
    requires IsTable(s0, w, h)
  {
    forall k :: 0 <= k < i && k < |queue| ==>
      queue[k] in blob || (InGrid(queue[k], w, h) && Has(s0[queue[k].x][queue[k].y], VISITED))
  }

  /** Every passing neighbour of a blob pixel is queued or was QUEUED already. */
  ghost predicate Closed(data: Grid, rms: Grid, w: nat, h: nat, xbound: int, ybound: int, cutoff: real,
                         s0: seq<seq<bv8>>, queue: seq<Pixel>, blob: seq<Pixel>)
    requires IsGrid(data, w, h) && IsGrid(rms, w, h) && IsTable(s0, w, h)
  {
    forall k, n ::
      0 <= k < |blob| && n in Neighbours(blob[k], xbound, ybound) && Passes(data, rms, w, h, n, cutoff)
      ==> n in queue || Has(s0[n.x][n.y], QUEUED)
  }

  /** What one call of `explore` on `p` appends: distinct passing neighbours of
      `p` that are neither queued nor were QUEUED already, and all of them. */
  ghost predicate AddedOk(data: Grid, rms: Grid, w: nat, h: nat, xbound: int, ybound: int, cutoff: real,
                          s0: seq<seq<bv8>>, p: Pixel, queue: seq<Pixel>, added: seq<Pixel>)
    requires IsGrid(data, w, h) && IsGrid(rms, w, h) && IsTable(s0, w, h)
  {
    && Distinct(added)
    && (forall n :: n in added <==>
          n in Neighbours(p, xbound, ybound) && Passes(data, rms, w, h, n, cutoff) &&
          n !in queue && !Has(s0[n.x][n.y], QUEUED))
  }

  /** Reading a queue entry that is already in the blob or was VISITED already. */
  lemma Skipped(w: nat, h: nat, s0: seq<seq<bv8>>, peak: Pixel, queue: seq<Pixel>, blob: seq<Pixel>, i: int)
    requires IsTable(s0, w, h)
    requires Progress(peak, queue, blob, i) && i < |queue|
    requires queue[0] == peak && InGrid(queue[i], w, h)
    requires Unvisited(w, h, s0, peak, blob) && ReadIn(w, h, s0, queue, blob, i)
    requires queue[i] in blob || Has(s0[queue[i].x][queue[i].y], VISITED)
    ensures Progress(peak, queue, blob, i + 1) && ReadIn(w, h, s0, queue, blob, i + 1)
  {
    if i == 0 {
      assert false;
    }
  }

  lemma DistinctConcat<T>(a: seq<T>, b: seq<T>)
    requires Distinct(a) && Distinct(b)
    requires forall x :: x in b ==> x !in a
    ensures Distinct(a + b)
  {
    forall i, j | 0 <= i < j < |a + b| ensures (a + b)[i] != (a + b)[j] {
      if i < |a| && j >= |a| {
        assert (a + b)[j] == b[j - |a|] && b[j - |a|] in b;
      }
    }
  }

  /** The queue stays well formed when `explore` appends its pixels. */
  lemma QueueGrows(data: Grid, rms: Grid, w: nat, h: nat, xbound: int, ybound: int, cutoff: real,
                   s0: seq<seq<bv8>>, peak: Pixel, queue: seq<Pixel>, p: Pixel, added: seq<Pixel>)
    requires IsGrid(data, w, h) && IsGrid(rms, w, h) && IsTable(s0, w, h)
    requires QueueOk(data, rms, w, h, cutoff, peak, queue)
    requires AddedOk(data, rms, w, h, xbound, ybound, cutoff, s0, p, queue, added)
    ensures QueueOk(data, rms, w, h, cutoff, peak, queue + added)
  {
    DistinctConcat(queue, added);
    var q := queue + added;
    forall k | |queue| <= k < |q|
      ensures InGrid(q[k], w, h) && Passes(data, rms, w, h, q[k], cutoff)
    {
      assert q[k] == added[k - |queue|] && added[k - |queue|] in added;
    }
  }

  /** `explore` appends only pixels that were not QUEUED when the walk started. */
  lemma NewlyQueuedGrows(data: Grid, rms: Grid, w: nat, h: nat, xbound: int, ybound: int, cutoff: real,
                         s0: seq<seq<bv8>>, peak: Pixel, queue: seq<Pixel>, p: Pixel, added: seq<Pixel>)
    requires IsGrid(data, w, h) && IsGrid(rms, w, h) && IsTable(s0, w, h)
    requires NewlyQueued(w, h, s0, queue) && 0 < |queue|
    requires QueueOk(data, rms, w, h, cutoff, peak, queue + added)
    requires AddedOk(data, rms, w, h, xbound, ybound, cutoff, s0, p, queue, added)
    ensures NewlyQueued(w, h, s0, queue + added)
  {
    var q := queue + added;
    forall k | 1 <= k < |q| ensures InGrid(q[k], w, h) && !Has(s0[q[k].x][q[k].y], QUEUED) {
      if k < |queue| {
        assert q[k] == queue[k];
      } else {
        assert q[k] == added[k - |queue|] && added[k - |queue|] in added;
      }
    }
  }

  /** Every appended pixel touches `p`, the blob's new last pixel. */
  lemma SourcedGrows(xbound: int, ybound: int, queue: seq<Pixel>, blob: seq<Pixel>, src: seq<int>,
                     p: Pixel, added: seq<Pixel>)
    requires Sourced(queue, blob, src)
    requires forall n :: n in added ==> n in Neighbours(p, xbound, ybound)
    ensures Sourced(queue + added, blob + [p], src + seq(|added|, _ => |blob|))
  {
    NeighboursSpec(p, xbound, ybound);
    var q, b, s := queue + added, blob + [p], src + seq(|added|, _ => |blob|);
    forall k | 1 <= k < |q| ensures 0 <= s[k] < |b| && Adjacent(b[s[k]], q[k]) {
      if k < |queue| {
        assert s[k] == src[k] && b[src[k]] == blob[src[k]];
      } else {
        assert q[k] == added[k - |queue|] && added[k - |queue|] in added;
      }
    }
  }

  /** A pixel touching one of the blob's may be appended to it. */
  lemma LinkedGrows(blob: seq<Pixel>, p: Pixel, j: int)
    requires Linked(blob)
    requires blob != [] ==> 0 <= j < |blob| && Adjacent(blob[j], p)
    ensures Linked(blob + [p])
  {
    var b := blob + [p];
    forall k | 0 < k < |b| ensures Touches(b, k) {
      if k < |blob| {
        assert Touches(blob, k);
        var i :| 0 <= i < k && Adjacent(blob[i], blob[k]);
        assert b[i] == blob[i] && b[k] == blob[k];
      } else {
        assert b[j] == blob[j] && b[k] == p;
      }
    }
  }

  /** A pixel may join the blob when it is new to the blob, drawn from the
      queue and, unless the blob is empty, passed the cutoff next to a blob pixel. */
  lemma BlobGrows(data: Grid, rms: Grid, w: nat, h: nat, cutoff: real,
                  queue: seq<Pixel>, blob: seq<Pixel>, p: Pixel, j: int, added: seq<Pixel>)
    requires IsGrid(data, w, h) && IsGrid(rms, w, h)
    requires BlobOk(data, rms, w, h, cutoff, queue, blob)
    requires p in queue && p !in blob
    requires blob != [] ==> Passes(data, rms, w, h, p, cutoff) && 0 <= j < |blob| && Adjacent(blob[j], p)
    ensures BlobOk(data, rms, w, h, cutoff, queue + added, blob + [p])
  {
    var b := blob + [p];
    assert forall k :: 0 <= k < |b| ==> b[k] in queue + added by {
      forall k | 0 <= k < |b| ensures b[k] in queue + added {
        if k < |blob| { assert b[k] == blob[k]; }
      }
    }
    assert forall k :: 0 < k < |b| ==> Passes(data, rms, w, h, b[k], cutoff) by {
      forall k | 0 < k < |b| ensures Passes(data, rms, w, h, b[k], cutoff) {
        if k < |blob| { assert b[k] == blob[k]; }
      }
    }
    assert Linked(b) by {
      LinkedGrows(blob, p, j);
    }
    assert Distinct(b) by {
      DistinctConcat(blob, [p]);
    }
  }

  /** One more queue entry read, and it joined the blob. */
  lemma ProgressGrows(peak: Pixel, queue: seq<Pixel>, blob: seq<Pixel>, i: int, added: seq<Pixel>)
    requires Progress(peak, queue, blob, i) && i < |queue| && queue[0] == peak
    ensures Progress(peak, queue + added, blob + [queue[i]], i + 1)
  {
  }

  /** The blob's new pixel was not VISITED either. */
  lemma UnvisitedGrows(w: nat, h: nat, s0: seq<seq<bv8>>, peak: Pixel, blob: seq<Pixel>, p: Pixel)
    requires IsTable(s0, w, h) && Unvisited(w, h, s0, peak, blob)
    requires InGrid(p, w, h) && !Has(s0[p.x][p.y], VISITED)
    ensures Unvisited(w, h, s0, peak, blob + [p])
  {
  }

  /** The entry read at `i` is now in the blob. */
  lemma ReadInGrows(w: nat, h: nat, s0: seq<seq<bv8>>, queue: seq<Pixel>, blob: seq<Pixel>, i: int,
                    added: seq<Pixel>)
    requires IsTable(s0, w, h) && ReadIn(w, h, s0, queue, blob, i) && 0 <= i < |queue|
    ensures ReadIn(w, h, s0, queue + added, blob + [queue[i]], i + 1)
  {
    var q, b := queue + added, blob + [queue[i]];
    forall k | 0 <= k < i + 1 && k < |q|
      ensures q[k] in b || (InGrid(q[k], w, h) && Has(s0[q[k].x][q[k].y], VISITED))
    {
      assert q[k] == queue[k];
    }
  }

  /** Exploring the new blob pixel queues all its passing neighbours that were
      neither queued nor QUEUED already. */
  lemma ClosedGrows(data: Grid, rms: Grid, w: nat, h: nat, xbound: int, ybound: int, cutoff: real,
                    s0: seq<seq<bv8>>, queue: seq<Pixel>, blob: seq<Pixel>, p: Pixel, added: seq<Pixel>)
    requires IsGrid(data, w, h) && IsGrid(rms, w, h) && IsTable(s0, w, h)
    requires Closed(data, rms, w, h, xbound, ybound, cutoff, s0, queue, blob)
    requires AddedOk(data, rms, w, h, xbound, ybound, cutoff, s0, p, queue, added)
    ensures Closed(data, rms, w, h, xbound, ybound, cutoff, s0, queue + added, blob + [p])
  {
    var q, b := queue + added, blob + [p];
    forall k, n | 0 <= k < |b| && n in Neighbours(b[k], xbound, ybound) && Passes(data, rms, w, h, n, cutoff)
      ensures n in q || Has(s0[n.x][n.y], QUEUED)
    {
      if k < |blob| {
        assert b[k] == blob[k];
      }
    }
  }

  /** All that the walk keeps true after `i` queue entries were read. */
  ghost predicate Inv(data: Grid, rms: Grid, w: nat, h: nat, xbound: int, ybound: int, cutoff: real,
                      s0: seq<seq<bv8>>, peak: Pixel, queue: seq<Pixel>, blob: seq<Pixel>, src: seq<int>, i: int)
    requires IsGrid(data, w, h) && IsGrid(rms, w, h) && IsTable(s0, w, h)
  {
    && QueueOk(data, rms, w, h, cutoff, peak, queue)
    && NewlyQueued(w, h, s0, queue)
    && Sourced(queue, blob, src)
    && BlobOk(data, rms, w, h, cutoff, queue, blob)
    && Progress(peak, queue, blob, i)
    && Unvisited(w, h, s0, peak, blob)
    && ReadIn(w, h, s0, queue, blob, i)
    && Closed(data, rms, w, h, xbound, ybound, cutoff, s0, queue, blob)
  }

  /** Reading a queue entry that is not VISITED, adding it to the blob and
      appending what `explore` queues for it keeps the walk's invariants. */
  lemma Absorbed(data: Grid, rms: Grid, w: nat, h: nat, xbound: int, ybound: int, cutoff: real,
                 s0: seq<seq<bv8>>, peak: Pixel, queue: seq<Pixel>, blob: seq<Pixel>, src: seq<int>, i: int,
                 added: seq<Pixel>)
    requires IsGrid(data, w, h) && IsGrid(rms, w, h) && IsTable(s0, w, h)
    requires Inv(data, rms, w, h, xbound, ybound, cutoff, s0, peak, queue, blob, src, i) && i < |queue|
    requires queue[i] !in blob && !Has(s0[queue[i].x][queue[i].y], VISITED)
    requires AddedOk(data, rms, w, h, xbound, ybound, cutoff, s0, queue[i], queue, added)
    ensures Inv(data, rms, w, h, xbound, ybound, cutoff, s0, peak, queue + added, blob + [queue[i]],
                src + seq(|added|, _ => |blob|), i + 1)
  {
    var p := queue[i];
    QueueGrows(data, rms, w, h, xbound, ybound, cutoff, s0, peak, queue, p, added);
    NewlyQueuedGrows(data, rms, w, h, xbound, ybound, cutoff, s0, peak, queue, p, added);
    SourcedGrows(xbound, ybound, queue, blob, src, p, added);
    var j := if i > 0 then src[i] else 0;
    assert p in queue;
    BlobGrows(data, rms, w, h, cutoff, queue, blob, p, j, added);
    ProgressGrows(peak, queue, blob, i, added);
    UnvisitedGrows(w, h, s0, peak, blob, p);
    ReadInGrows(w, h, s0, queue, blob, i, added);
    ClosedGrows(data, rms, w, h, xbound, ybound, cutoff, s0, queue, blob, p, added);
  }

  /** Distinct elements of a set are no more than the set has. */
  lemma {:induction false} DistinctWithin<T>(s: seq<T>, cells: set<T>)
    requires Distinct(s) && forall k :: 0 <= k < |s| ==> s[k] in cells
    ensures |s| <= |cells|
  {
    if s != [] {
      var rest := s[1..];
      assert forall k :: 0 <= k < |rest| ==> rest[k] in cells - {s[0]} by {
        forall k | 0 <= k < |rest| ensures rest[k] in cells - {s[0]} {
          assert rest[k] == s[k + 1];
        }
      }
      DistinctWithin(rest, cells - {s[0]});
    }
  }

  /** At the end of the walk every passing neighbour of the blob is in the blob
      or was QUEUED or VISITED before the walk. */
  lemma Finished(data: Grid, rms: Grid, w: nat, h: nat, xbound: int, ybound: int, cutoff: real,
                 s0: seq<seq<bv8>>, queue: seq<Pixel>, blob: seq<Pixel>)
    requires IsGrid(data, w, h) && IsGrid(rms, w, h) && IsTable(s0, w, h)
    requires Closed(data, rms, w, h, xbound, ybound, cutoff, s0, queue, blob)
    requires ReadIn(w, h, s0, queue, blob, |queue|)
    ensures forall k, n ::
      0 <= k < |blob| && n in Neighbours(blob[k], xbound, ybound) && Passes(data, rms, w, h, n, cutoff)
      ==> n in blob || Has(s0[n.x][n.y], QUEUED) || Has(s0[n.x][n.y], VISITED)
  {
    forall k, n | 0 <= k < |blob| && n in Neighbours(blob[k], xbound, ybound) && Passes(data, rms, w, h, n, cutoff)
      ensures n in blob || Has(s0[n.x][n.y], QUEUED) || Has(s0[n.x][n.y], VISITED)
    {
      if n in queue {
        var m :| 0 <= m < |queue| && queue[m] == n;
      }
    }
  }

  /** `status[x, y] |= VISITED` for a queued pixel that is not yet in the blob. */
  method MarkVisited(status: array2<bv8>, w: nat, h: nat, ghost s0: seq<seq<bv8>>,
                     ghost queue: seq<Pixel>, ghost blob: seq<Pixel>, p: Pixel)
    requires status.Length0 == w && status.Length1 == h && IsTable(s0, w, h)
    requires Marked(status, w, h, s0, queue, blob) && InGrid(p, w, h) && p in queue && p !in blob
    modifies status
    ensures Marked(status, w, h, s0, queue, blob + [p])
  {
    status[p.x, p.y] := status[p.x, p.y] | VISITED;
    forall a, b | 0 <= a < w && 0 <= b < h
      ensures status[a, b] == Mark(s0[a][b], Pixel(a, b) in queue, Pixel(a, b) in blob + [p])
    {
      MarkBits(s0[a][b], Pixel(a, b) in queue, Pixel(a, b) in blob);
    }
  }

  /** Under `Marked`, what `explore` would enqueue from `p` is read off the
      queue and the bytes before the walk. */
  lemma EnqueuedMarked(data: Grid, rms: Grid, w: nat, h: nat, status: array2<bv8>, xbound: int, ybound: int,
                       cutoff: real, s0: seq<seq<bv8>>, queue: seq<Pixel>, blob: seq<Pixel>, p: Pixel)
    requires IsGrid(data, w, h) && IsGrid(rms, w, h) && IsTable(s0, w, h)
    requires status.Length0 == w && status.Length1 == h && xbound < w && ybound < h
    requires Marked(status, w, h, s0, queue, blob) && InGrid(p, w, h)
    ensures AddedOk(data, rms, w, h, xbound, ybound, cutoff, s0, p, queue,
                    Enqueued(data, rms, w, h, status, cutoff, p, xbound, ybound))
  {
    var added := Enqueued(data, rms, w, h, status, cutoff, p, xbound, ybound);
    EnqueuedSpec(data, rms, w, h, status, cutoff, p, xbound, ybound);
    forall n
      ensures n in added <==> n in Neighbours(p, xbound, ybound) && Passes(data, rms, w, h, n, cutoff) &&
                              n !in queue && !Has(s0[n.x][n.y], QUEUED)
    {
      if InGrid(n, w, h) {
        MarkBits(s0[n.x][n.y], n in queue, n in blob);
      }
    }
  }

  /** `explore` from a pixel of the blob: the pixels it enqueues are exactly the
      passing neighbours that were neither queued before the walk nor in the queue. */
  method Spread(data: Grid, rms: Grid, w: nat, h: nat, status: array2<bv8>, xbound: int, ybound: int,
                cutoff: real, ghost s0: seq<seq<bv8>>, queue: seq<Pixel>, ghost blob: seq<Pixel>, p: Pixel)
    returns (queue': seq<Pixel>, ghost added: seq<Pixel>)
    requires IsGrid(data, w, h) && IsGrid(rms, w, h) && IsTable(s0, w, h)
    requires status.Length0 == w && status.Length1 == h && xbound < w && ybound < h
    requires Marked(status, w, h, s0, queue, blob) && InGrid(p, w, h)
    modifies status
    ensures queue' == queue + added
    ensures AddedOk(data, rms, w, h, xbound, ybound, cutoff, s0, p, queue, added)
    ensures Marked(status, w, h, s0, queue', blob)
  {
    added := Enqueued(data, rms, w, h, status, cutoff, p, xbound, ybound);
    EnqueuedMarked(data, rms, w, h, status, xbound, ybound, cutoff, s0, queue, blob, p);
    var halted;
    queue', halted := Explore(data, rms, w, h, status, queue, xbound, ybound, cutoff, p);
    forall a, b | 0 <= a < w && 0 <= b < h
      ensures status[a, b] == Mark(s0[a][b], Pixel(a, b) in queue', Pixel(a, b) in blob)
    {
      MarkBits(s0[a][b], Pixel(a, b) in queue, Pixel(a, b) in blob);
    }
  }

  /** One pass of the `for` loop of `flood`: read queue entry `i`; unless it is
      VISITED, mark it VISITED, add it to the blob and explore it. */
  method Visit(data: Grid, rms: Grid, w: nat, h: nat, status: array2<bv8>, xbound: int, ybound: int,
               cutoff: real, ghost s0: seq<seq<bv8>>, ghost peak: Pixel,
               queue: seq<Pixel>, blob: seq<Pixel>, ghost src: seq<int>, i: nat)
    returns (queue': seq<Pixel>, blob': seq<Pixel>, ghost src': seq<int>)
    requires IsGrid(data, w, h) && IsGrid(rms, w, h) && IsTable(s0, w, h)
    requires status.Length0 == w && status.Length1 == h && xbound < w && ybound < h
    requires Inv(data, rms, w, h, xbound, ybound, cutoff, s0, peak, queue, blob, src, i) && i < |queue|
    requires Marked(status, w, h, s0, queue, blob)
    modifies status
    ensures Inv(data, rms, w, h, xbound, ybound, cutoff, s0, peak, queue', blob', src', i + 1)
    ensures Marked(status, w, h, s0, queue', blob')
    ensures blob' == blob || blob' == blob + [queue[i]]
  {
    var p := queue[i];
    assert InGrid(p, w, h) && p in queue;
    MarkBits(s0[p.x][p.y], true, p in blob);
    if Has(status[p.x, p.y], VISITED) {
      Skipped(w, h, s0, peak, queue, blob, i);
      return queue, blob, src;
    }
    MarkVisited(status, w, h, s0, queue, blob, p);
    blob' := blob + [p];
    ghost var added;
    queue', added := Spread(data, rms, w, h, status, xbound, ybound, cutoff, s0, queue, blob', p);
    src' := src + seq(|added|, _ => |blob|);
    Absorbed(data, rms, w, h, xbound, ybound, cutoff, s0, peak, queue, blob, src, i, added);
  }

  /** `status[peak] |= QUEUED` at the start of a walk. */
  method MarkQueued(status: array2<bv8>, w: nat, h: nat, ghost s0: seq<seq<bv8>>, peak: Pixel)
    requires status.Length0 == w && status.Length1 == h && IsTable(s0, w, h) && InGrid(peak, w, h)
    requires forall a, b :: 0 <= a < w && 0 <= b < h ==> s0[a][b] == status[a, b]
    modifies status
    ensures Marked(status, w, h, s0, [peak], [])
  {
    status[peak.x, peak.y] := status[peak.x, peak.y] | QUEUED;
    forall a, b | 0 <= a < w && 0 <= b < h
      ensures status[a, b] == Mark(s0[a][b], Pixel(a, b) in [peak], false)
    {
      MarkBits(s0[a][b], false, false);
    }
  }

  /** A queue of distinct in-image pixels is no longer than the image has pixels. */
  lemma InCells(queue: seq<Pixel>, w: nat, h: nat, cells: set<Pixel>)
    requires Distinct(queue) && forall k :: 0 <= k < |queue| ==> InGrid(queue[k], w, h)
    requires cells == set x: int, y: int | 0 <= x < w && 0 <= y < h :: Pixel(x, y)
    ensures |queue| <= |cells|
  {
    forall k | 0 <= k < |queue| ensures queue[k] in cells {
      assert queue[k] == Pixel(queue[k].x, queue[k].y);
    }
    DistinctWithin(queue, cells);
  }

  /** What one call of `flood` from `peak` does, with `t0` and `t1` the status
      bytes before and after it: nothing if `peak` was VISITED; otherwise a
      blob starting at `peak`, of distinct in-image pixels not VISITED before,
      each after the first not QUEUED before, passing the cutoff and touching
      an earlier one,
      holding every passing neighbour of its pixels that was not QUEUED or
      VISITED before; status bits are only OR-ed in, the newly VISITED pixels
      are the blob's, and every newly QUEUED one is in the blob or was VISITED. */
  ghost predicate FloodSpec(data: Grid, rms: Grid, w: nat, h: nat, xbound: int, ybound: int, cutoff: real,
                            peak: Pixel, t0: seq<seq<bv8>>, t1: seq<seq<bv8>>, blob: seq<Pixel>)
    requires IsGrid(data, w, h) && IsGrid(rms, w, h) && IsTable(t0, w, h) && IsTable(t1, w, h)
    requires InGrid(peak, w, h)
  {
    && (Has(t0[peak.x][peak.y], VISITED) ==> blob == [] && t1 == t0)
    && (!Has(t0[peak.x][peak.y], VISITED) ==> 0 < |blob| && blob[0] == peak)
    && (forall k :: 0 <= k < |blob| ==> InGrid(blob[k], w, h) && !Has(t0[blob[k].x][blob[k].y], VISITED))
    && Distinct(blob)
    && (forall k :: 0 < k < |blob| ==> !Has(t0[blob[k].x][blob[k].y], QUEUED))
    && (forall k :: 0 < k < |blob| ==> Passes(data, rms, w, h, blob[k], cutoff))
    && Linked(blob)
    && (forall k, n ::
          0 <= k < |blob| && n in Neighbours(blob[k], xbound, ybound) && Passes(data, rms, w, h, n, cutoff)
          ==> n in blob || Has(t0[n.x][n.y], QUEUED) || Has(t0[n.x][n.y], VISITED))
    && (forall a, b :: 0 <= a < w && 0 <= b < h ==> Grows(t0[a][b], t1[a][b]))
    && (forall a, b :: 0 <= a < w && 0 <= b < h ==>
          (Has(t1[a][b], VISITED) <==> Has(t0[a][b], VISITED) || Pixel(a, b) in blob))
    && (forall a, b :: 0 <= a < w && 0 <= b < h ==>
          (Pixel(a, b) in blob ==> Has(t1[a][b], QUEUED)) &&
          (Has(t1[a][b], QUEUED) ==> Has(t0[a][b], QUEUED) || Has(t0[a][b], VISITED) || Pixel(a, b) in blob))
  }

  /** `flood` from a VISITED pixel. */
  lemma Idle(data: Grid, rms: Grid, w: nat, h: nat, xbound: int, ybound: int, cutoff: real,
             peak: Pixel, t0: seq<seq<bv8>>)
    requires IsGrid(data, w, h) && IsGrid(rms, w, h) && IsTable(t0, w, h)
    requires InGrid(peak, w, h) && Has(t0[peak.x][peak.y], VISITED)
    ensures FloodSpec(data, rms, w, h, xbound, ybound, cutoff, peak, t0, t0, [])
  {
    forall a, b | 0 <= a < w && 0 <= b < h ensures Grows(t0[a][b], t0[a][b]) {
      MarkBits(t0[a][b], false, false);
    }
  }

  /** Status bytes `t` are the bytes `s0` marked by the queue and the blob. */
  ghost predicate Stamped(t: seq<seq<bv8>>, w: nat, h: nat, s0: seq<seq<bv8>>, queue: seq<Pixel>, blob: seq<Pixel>)
    requires IsTable(t, w, h) && IsTable(s0, w, h)
  {
    forall a, b :: 0 <= a < w && 0 <= b < h ==> t[a][b] == Mark(s0[a][b], Pixel(a, b) in queue, Pixel(a, b) in blob)
  }

  /** What the marks say at the end of a walk, pixel by pixel: bits only grew,
      the newly VISITED pixels are the blob, and every newly QUEUED one was read. */
  lemma Marks(w: nat, h: nat, s0: seq<seq<bv8>>, s1: seq<seq<bv8>>, queue: seq<Pixel>, blob: seq<Pixel>)
    requires IsTable(s0, w, h) && IsTable(s1, w, h)
    requires Stamped(s1, w, h, s0, queue, blob) && ReadIn(w, h, s0, queue, blob, |queue|)
    requires forall k :: 0 <= k < |blob| ==> blob[k] in queue
    ensures forall a, b :: 0 <= a < w && 0 <= b < h ==> Grows(s0[a][b], s1[a][b])
    ensures forall a, b :: 0 <= a < w && 0 <= b < h ==>
      (Has(s1[a][b], VISITED) <==> Has(s0[a][b], VISITED) || Pixel(a, b) in blob)
    ensures forall a, b :: 0 <= a < w && 0 <= b < h ==>
      (Pixel(a, b) in blob ==> Has(s1[a][b], QUEUED)) &&
      (Has(s1[a][b], QUEUED) ==> Has(s0[a][b], QUEUED) || Has(s0[a][b], VISITED) || Pixel(a, b) in blob)
  {
    forall a, b | 0 <= a < w && 0 <= b < h
      ensures Grows(s0[a][b], s1[a][b])
      ensures Has(s1[a][b], VISITED) <==> Has(s0[a][b], VISITED) || Pixel(a, b) in blob
      ensures Pixel(a, b) in blob ==> Has(s1[a][b], QUEUED)
      ensures Has(s1[a][b], QUEUED) ==> Has(s0[a][b], QUEUED) || Has(s0[a][b], VISITED) || Pixel(a, b) in blob
    {
      MarkBits(s0[a][b], Pixel(a, b) in queue, Pixel(a, b) in blob);
      if Pixel(a, b) in queue {
        var k :| 0 <= k < |queue| && queue[k] == Pixel(a, b);
      }
    }
  }

  /** Every blob pixel after the peak came from the queue after the peak, so
      it was not QUEUED when the walk started. */
  lemma BlobNewlyQueued(w: nat, h: nat, s0: seq<seq<bv8>>, peak: Pixel, queue: seq<Pixel>, blob: seq<Pixel>)
    requires IsTable(s0, w, h)
    requires 0 < |queue| && queue[0] == peak && NewlyQueued(w, h, s0, queue)
    requires (forall k :: 0 <= k < |blob| ==> blob[k] in queue) && Distinct(blob)
    requires 0 < |blob| ==> blob[0] == peak
    requires forall k :: 0 <= k < |blob| ==> InGrid(blob[k], w, h)
    ensures forall k :: 0 < k < |blob| ==> !Has(s0[blob[k].x][blob[k].y], QUEUED)
  {
    forall k | 0 < k < |blob| ensures !Has(s0[blob[k].x][blob[k].y], QUEUED) {
      var m :| 0 <= m < |queue| && queue[m] == blob[k];
      assert blob[k] != blob[0];
    }
  }

  /** The walk's invariant, with every queue entry read, is `FloodSpec`. */
  lemma Outcome(data: Grid, rms: Grid, w: nat, h: nat, xbound: int, ybound: int, cutoff: real,
                s0: seq<seq<bv8>>, s1: seq<seq<bv8>>, peak: Pixel, queue: seq<Pixel>, blob: seq<Pixel>, src: seq<int>)
    requires IsGrid(data, w, h) && IsGrid(rms, w, h) && IsTable(s0, w, h) && IsTable(s1, w, h)
    requires InGrid(peak, w, h) && !Has(s0[peak.x][peak.y], VISITED)
    requires Inv(data, rms, w, h, xbound, ybound, cutoff, s0, peak, queue, blob, src, |queue|)
    requires Stamped(s1, w, h, s0, queue, blob)
    ensures FloodSpec(data, rms, w, h, xbound, ybound, cutoff, peak, s0, s1, blob)
  {
    Finished(data, rms, w, h, xbound, ybound, cutoff, s0, queue, blob);
    Marks(w, h, s0, s1, queue, blob);
    BlobNewlyQueued(w, h, s0, peak, queue, blob);
  }

  /** `flood`: the blob of `peak`, or nothing if `peak` was VISITED already. */
  method Flood(data: Grid, rms: Grid, w: nat, h: nat, status: array2<bv8>, xbound: int, ybound: int,
               peak: Pixel, cutoff: real) returns (blob: seq<Pixel>)
    requires IsGrid(data, w, h) && IsGrid(rms, w, h)
    requires status.Length0 == w && status.Length1 == h && xbound < w && ybound < h
    requires InGrid(peak, w, h)
    modifies status
    ensures FloodSpec(data, rms, w, h, xbound, ybound, cutoff, peak, old(Snapshot(status)), Snapshot(status), blob)
  {
    if Has(status[peak.x, peak.y], VISITED) {
      Idle(data, rms, w, h, xbound, ybound, cutoff, peak, Snapshot(status));
      return [];
    }
    ghost var s0 := Snapshot(status);
    blob := [];
    var queue := [peak];
    ghost var src: seq<int> := [-1];
    MarkQueued(status, w, h, s0, peak);
    ghost var cells := set x: int, y: int | 0 <= x < w && 0 <= y < h :: Pixel(x, y);
    var i := 0;
    while i < |queue|
      invariant Inv(data, rms, w, h, xbound, ybound, cutoff, s0, peak, queue, blob, src, i)
      invariant Marked(status, w, h, s0, queue, blob)
      decreases |cells| - i
    {
      InCells(queue, w, h, cells);
      queue, blob, src := Visit(data, rms, w, h, status, xbound, ybound, cutoff, s0, peak, queue, blob, src, i);
      i := i + 1;
    }
    ghost var s1 := Snapshot(status);
    assert Stamped(s1, w, h, s0, queue, blob);
    Outcome(data, rms, w, h, xbound, ybound, cutoff, s0, s1, peak, queue, blob, src);
  }
}
