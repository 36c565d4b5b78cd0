/**
  Island segmentation by flood fill (aegean.py `explore`, `flood` and
  `gen_flood_wrap`).  The image and the rms image are value grids indexed
  `[x][y]`; the per-pixel `uint8` status map that the three routines share and
  update in place is an `array2<bv8>` of the same shape.
 */
module Segmentation {
  import opened Floats
  import opened Islands

  /** The status bits (aegean.py:48-50). */
  const PEAKED: bv8 := 1
  const QUEUED: bv8 := 2
  const VISITED: bv8 := 4

  predicate Has(s: bv8, bit: bv8)
  {
    s & bit != 0
  }

  /** `after` is `before` with at most the QUEUED and VISITED bits OR-ed in. */
  predicate Grows(before: bv8, after: bv8)
  {
    after == before | (after & (QUEUED | VISITED))
  }

  /** p and q share a side. */
  predicate Adjacent(p: Pixel, q: Pixel)
  {
    (p.x == q.x && (p.y == q.y + 1 || q.y == p.y + 1)) ||
    (p.y == q.y && (p.x == q.x + 1 || q.x == p.x + 1))
  }

  /** `data[p]/rmsimg[p] >= cutoffratio`, for a pixel inside the image. */
  predicate Passes(data: Grid, rms: Grid, w: nat, h: nat, p: Pixel, cutoff: real)
    requires IsGrid(data, w, h) && IsGrid(rms, w, h)
  {
    InGrid(p, w, h) && Ge(Div(data[p.x][p.y], rms[p.x][p.y]), cutoff)
  }

  /** `[n]` when `c` holds, `[]` otherwise. */
  function Pick(c: bool, n: Pixel): seq<Pixel>
  {
    if c then [n] else []
  }

  /** Picking among four different pixels gives each at most once, and
      exactly the picked ones. */
  lemma PickFour(c1: bool, p1: Pixel, c2: bool, p2: Pixel, c3: bool, p3: Pixel, c4: bool, p4: Pixel)
    requires p1 != p2 && p1 != p3 && p1 != p4 && p2 != p3 && p2 != p4 && p3 != p4
    ensures Distinct(Pick(c1, p1) + Pick(c2, p2) + Pick(c3, p3) + Pick(c4, p4))
    ensures forall n :: n in Pick(c1, p1) + Pick(c2, p2) + Pick(c3, p3) + Pick(c4, p4) <==>
      (c1 && n == p1) || (c2 && n == p2) || (c3 && n == p3) || (c4 && n == p4)
  {
    var s := Pick(c1, p1) + Pick(c2, p2) + Pick(c3, p3) + Pick(c4, p4);
    forall n
      ensures n in s <==> (c1 && n == p1) || (c2 && n == p2) || (c3 && n == p3) || (c4 && n == p4)
    {
      InOneOf(n, Pick(c1, p1), Pick(c2, p2), Pick(c3, p3), Pick(c4, p4));
    }
  }

  /** The neighbours `explore` looks at, in its order: left, right, down, up,
      each only when the corresponding bound test lets it through. */
  function Neighbours(p: Pixel, xbound: int, ybound: int): (r: seq<Pixel>)
  {
    Pick(p.x > 0, Pixel(p.x - 1, p.y)) + Pick(p.x < xbound, Pixel(p.x + 1, p.y)) +
    Pick(p.y > 0, Pixel(p.x, p.y - 1)) + Pick(p.y < ybound, Pixel(p.x, p.y + 1))
  }

  /** The neighbours are distinct 4-neighbours of `p`; for a pixel inside
      [0, xbound] x [0, ybound] they are exactly its 4-neighbours in that box,
      and a neighbour never leaves the image where `p` and the bounds are in it. */
  lemma NeighboursSpec(p: Pixel, xbound: int, ybound: int)
    ensures Distinct(Neighbours(p, xbound, ybound))
    ensures forall n :: n in Neighbours(p, xbound, ybound) ==> Adjacent(p, n)
    ensures forall n :: n in Neighbours(p, xbound, ybound) ==>
      (0 <= p.x ==> 0 <= n.x) && (0 <= p.y ==> 0 <= n.y) &&
      (n.x <= p.x || n.x <= xbound) && (n.y <= p.y || n.y <= ybound)
    ensures 0 <= p.x <= xbound && 0 <= p.y <= ybound ==>
      forall n :: n in Neighbours(p, xbound, ybound) <==>
        Adjacent(p, n) && 0 <= n.x <= xbound && 0 <= n.y <= ybound
  {
    PickFour(p.x > 0, Pixel(p.x - 1, p.y), p.x < xbound, Pixel(p.x + 1, p.y),
             p.y > 0, Pixel(p.x, p.y - 1), p.y < ybound, Pixel(p.x, p.y + 1));
  }

  /** A pixel `explore` may enqueue, given its status byte `s`: inside the
      image, without the QUEUED bit, and passing the cutoff. */
  predicate Admits(data: Grid, rms: Grid, w: nat, h: nat, s: bv8, cutoff: real, n: Pixel)
    requires IsGrid(data, w, h) && IsGrid(rms, w, h)
  {
    !Has(s, QUEUED) && Passes(data, rms, w, h, n, cutoff)
  }

  /** `n` is admissible in the current status map. */
  ghost predicate Admissible(data: Grid, rms: Grid, w: nat, h: nat, status: array2<bv8>,
                             cutoff: real, n: Pixel)
    requires IsGrid(data, w, h) && IsGrid(rms, w, h)
    requires status.Length0 == w && status.Length1 == h
    reads status
  {
    InGrid(n, w, h) && Admits(data, rms, w, h, status[n.x, n.y], cutoff, n)
  }

  /** What `explore` appends to the queue, in its order: each neighbour that
      passes its bound test and is admissible. */
  ghost function Enqueued(data: Grid, rms: Grid, w: nat, h: nat, status: array2<bv8>,
                          cutoff: real, pixel: Pixel, xbound: int, ybound: int): seq<Pixel>
    requires IsGrid(data, w, h) && IsGrid(rms, w, h)
    requires status.Length0 == w && status.Length1 == h
    reads status
  {
    var (x, y) := (pixel.x, pixel.y);
    Pick(x > 0 && Admissible(data, rms, w, h, status, cutoff, Pixel(x - 1, y)), Pixel(x - 1, y)) +
    Pick(x < xbound && Admissible(data, rms, w, h, status, cutoff, Pixel(x + 1, y)), Pixel(x + 1, y)) +
    Pick(y > 0 && Admissible(data, rms, w, h, status, cutoff, Pixel(x, y - 1)), Pixel(x, y - 1)) +
    Pick(y < ybound && Admissible(data, rms, w, h, status, cutoff, Pixel(x, y + 1)), Pixel(x, y + 1))
  }

  /** `explore` enqueues exactly the admissible neighbours of `pixel`, each once. */
  lemma EnqueuedSpec(data: Grid, rms: Grid, w: nat, h: nat, status: array2<bv8>,
                     cutoff: real, pixel: Pixel, xbound: int, ybound: int)
    requires IsGrid(data, w, h) && IsGrid(rms, w, h)
    requires status.Length0 == w && status.Length1 == h
    ensures Distinct(Enqueued(data, rms, w, h, status, cutoff, pixel, xbound, ybound))
    ensures forall n :: n in Enqueued(data, rms, w, h, status, cutoff, pixel, xbound, ybound) <==>
      n in Neighbours(pixel, xbound, ybound) && Admissible(data, rms, w, h, status, cutoff, n)
  {
    var (x, y) := (pixel.x, pixel.y);
    var (pl, pr, pd, pu) := (Pixel(x - 1, y), Pixel(x + 1, y), Pixel(x, y - 1), Pixel(x, y + 1));
    PickFour(x > 0, pl, x < xbound, pr, y > 0, pd, y < ybound, pu);
    PickFour(x > 0 && Admissible(data, rms, w, h, status, cutoff, pl), pl,
             x < xbound && Admissible(data, rms, w, h, status, cutoff, pr), pr,
             y > 0 && Admissible(data, rms, w, h, status, cutoff, pd), pd,
             y < ybound && Admissible(data, rms, w, h, status, cutoff, pu), pu);
  }

  /** Since the previous state, exactly the pixels of `added` have had the
      QUEUED bit OR-ed in. */
  twostate predicate QueuedOnly(status: array2<bv8>, added: seq<Pixel>)
    reads status
  {
    forall a, b :: 0 <= a < status.Length0 && 0 <= b < status.Length1 ==>
      status[a, b] == if Pixel(a, b) in added then old(status[a, b]) | QUEUED else old(status[a, b])
  }

  /** One of the four `if` blocks of `explore`: when the bound test `inside`
      holds, enqueue `n` and set its QUEUED bit if it is admissible; `added`
      tells whether it was. */
  method Offer(data: Grid, rms: Grid, w: nat, h: nat, status: array2<bv8>,
               queue: seq<Pixel>, cutoff: real, inside: bool, n: Pixel)
    returns (queue': seq<Pixel>, ghost added: bool)
    requires IsGrid(data, w, h) && IsGrid(rms, w, h)
    requires status.Length0 == w && status.Length1 == h
    requires inside ==> InGrid(n, w, h)
    modifies status
    ensures added <==> inside && Admits(data, rms, w, h, old(status[n.x, n.y]), cutoff, n)
    ensures queue' == queue + Pick(added, n)
    ensures forall a, b :: 0 <= a < w && 0 <= b < h ==>
      status[a, b] == if added && a == n.x && b == n.y then old(status[a, b]) | QUEUED else old(status[a, b])
  {
    queue', added := queue, false;
    if inside {
      if !Has(status[n.x, n.y], QUEUED) && Ge(Div(data[n.x][n.y], rms[n.x][n.y]), cutoff) {
        queue' := queue + [n];
        status[n.x, n.y] := status[n.x, n.y] | QUEUED;
        added := true;
      }
    }
  }

  lemma InOneOf<T>(p: T, a: seq<T>, b: seq<T>, c: seq<T>, d: seq<T>)
    ensures p in a + b + c + d <==> p in a || p in b || p in c || p in d
  {
  }

  lemma AppendAssoc<T>(a: seq<T>, b: seq<T>, c: seq<T>)
    ensures a + b + c == a + (b + c)
  {
  }

  /** The four `if` blocks of `explore` for a pixel with non-negative
      coordinates; `al`, `ar`, `ad`, `au` tell which neighbours were enqueued. */
  method OfferAll(data: Grid, rms: Grid, w: nat, h: nat, status: array2<bv8>, queue: seq<Pixel>,
                  xbound: int, ybound: int, cutoff: real, x: nat, y: nat)
    returns (queue': seq<Pixel>, ghost al: bool, ghost ar: bool, ghost ad: bool, ghost au: bool)
    requires IsGrid(data, w, h) && IsGrid(rms, w, h)
    requires status.Length0 == w && status.Length1 == h
    requires xbound < w && ybound < h && x < w && y < h
    modifies status
    ensures al <==> x > 0 && old(Admissible(data, rms, w, h, status, cutoff, Pixel(x - 1, y)))
    ensures ar <==> x < xbound && old(Admissible(data, rms, w, h, status, cutoff, Pixel(x + 1, y)))
    ensures ad <==> y > 0 && old(Admissible(data, rms, w, h, status, cutoff, Pixel(x, y - 1)))
    ensures au <==> y < ybound && old(Admissible(data, rms, w, h, status, cutoff, Pixel(x, y + 1)))
    ensures queue' == queue + Pick(al, Pixel(x - 1, y)) + Pick(ar, Pixel(x + 1, y)) +
                              Pick(ad, Pixel(x, y - 1)) + Pick(au, Pixel(x, y + 1))
    ensures forall a, b :: 0 <= a < w && 0 <= b < h ==>
      status[a, b] ==
        if (al && Pixel(a, b) == Pixel(x - 1, y)) || (ar && Pixel(a, b) == Pixel(x + 1, y)) ||
           (ad && Pixel(a, b) == Pixel(x, y - 1)) || (au && Pixel(a, b) == Pixel(x, y + 1))
        then old(status[a, b]) | QUEUED else old(status[a, b])
  {
    var pl, pr, pd, pu := Pixel(x - 1, y), Pixel(x + 1, y), Pixel(x, y - 1), Pixel(x, y + 1);
    var q1, q2, q3;
    q1, al := Offer(data, rms, w, h, status, queue, cutoff, x > 0, pl);
    q2, ar := Offer(data, rms, w, h, status, q1, cutoff, x < xbound, pr);
    forall a, b | 0 <= a < w && 0 <= b < h
      ensures status[a, b] ==
        if (al && Pixel(a, b) == pl) || (ar && Pixel(a, b) == pr)
        then old(status[a, b]) | QUEUED else old(status[a, b])
    {
    }
    q3, ad := Offer(data, rms, w, h, status, q2, cutoff, y > 0, pd);
    forall a, b | 0 <= a < w && 0 <= b < h
      ensures status[a, b] ==
        if (al && Pixel(a, b) == pl) || (ar && Pixel(a, b) == pr) || (ad && Pixel(a, b) == pd)
        then old(status[a, b]) | QUEUED else old(status[a, b])
    {
    }
    queue', au := Offer(data, rms, w, h, status, q3, cutoff, y < ybound, pu);
  }

  /** `explore`: appends to `queue` the neighbours of `pixel` that are inside the
      image, not yet QUEUED and pass the cutoff, in neighbour order, and sets
      their QUEUED bit.  A negative coordinate ends the program in the source
      (`sys.exit`); here it sets `halted` and changes nothing. */
  method Explore(data: Grid, rms: Grid, w: nat, h: nat, status: array2<bv8>, queue: seq<Pixel>,
                 xbound: int, ybound: int, cutoff: real, pixel: Pixel)
    returns (queue': seq<Pixel>, halted: bool)
    requires IsGrid(data, w, h) && IsGrid(rms, w, h)
    requires status.Length0 == w && status.Length1 == h
    requires xbound < w && ybound < h && pixel.x < w && pixel.y < h
    modifies status
    ensures halted <==> pixel.x < 0 || pixel.y < 0
    ensures halted ==> queue' == queue && unchanged(status)
    ensures !halted ==>
      queue' == queue + old(Enqueued(data, rms, w, h, status, cutoff, pixel, xbound, ybound))
    ensures !halted ==>
      QueuedOnly(status, old(Enqueued(data, rms, w, h, status, cutoff, pixel, xbound, ybound)))
  {
    if pixel.x < 0 || pixel.y < 0 {
      return queue, true;
    }
    halted := false;
    var x, y := pixel.x, pixel.y;
    ghost var enqueued := Enqueued(data, rms, w, h, status, cutoff, pixel, xbound, ybound);
    ghost var al, ar, ad, au;
    queue', al, ar, ad, au := OfferAll(data, rms, w, h, status, queue, xbound, ybound, cutoff, x, y);
    ghost var l, r, d, u := Pick(al, Pixel(x - 1, y)), Pick(ar, Pixel(x + 1, y)),
                            Pick(ad, Pixel(x, y - 1)), Pick(au, Pixel(x, y + 1));
    assert enqueued == l + r + d + u;
    AppendAssoc(queue, l, r);
    AppendAssoc(queue, l + r, d);
    AppendAssoc(queue, l + r + d, u);
    forall a, b | 0 <= a < w && 0 <= b < h
      ensures status[a, b] ==
        if Pixel(a, b) in l + r + d + u then old(status[a, b]) | QUEUED else old(status[a, b])
    {
      InOneOf(Pixel(a, b), l, r, d, u);
    }
  }
}
