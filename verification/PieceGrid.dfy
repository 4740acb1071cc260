/** The piece-grid scramble of scripts/mangafire_quality_proof.py and its inverse.

    An image is cut into a grid of pieces; along each axis the pieces change places
    by a modular map that leaves the last (possibly smaller) piece where it is.
    Pixels are an arbitrary type and the two piece constants are parameters. */
module PieceGrid {

  datatype Outcome<+T> = Ok(value: T) | ZeroDivision

  // ---------------------------------------------------------------- geometry

  /** Ceiling division, for a positive divisor. */
  function CeilDiv(a: nat, b: nat): nat
    requires b > 0
  {
    (a + b - 1) / b
  }

  /** How one axis of an image is cut: `size` pixels in pieces of `edge`, numbered 0..last. */
  datatype Axis = Axis(size: nat, edge: nat, last: nat, offset: int) {
    ghost predicate Valid() {
      0 < edge && edge * last < size <= edge * last + edge
    }

    /** The number of pixels of piece `x`; only the last piece may be short. */
    function Extent(x: nat): nat
      requires Valid() && x <= last
    {
      Fits(this, x);
      if edge < size - edge * x then edge else size - edge * x
    }

    /** Where piece `x` comes from. */
    function Slot(x: nat): nat
      requires x <= last
    {
      if x == last then x else (last - x + offset) % last
    }

    /** Where pixel `c` comes from. */
    function Source(c: nat): nat
      requires Valid() && c < size
    {
      PieceOf(this, c);
      edge * Slot(c / edge) + c % edge
    }
  }

  function MakeAxis(size: nat, pieceSize: nat, minSplit: nat, offset: int): (a: Axis)
    requires 0 < size && 0 < pieceSize && 0 < minSplit
    ensures a.Valid() && a.size == size && a.offset == offset
    ensures a.edge <= pieceSize && a.edge * minSplit < size + minSplit
    ensures a.edge == pieceSize || size <= a.edge * minSplit
  {
    var ceil := CeilDiv(size, minSplit);
    CeilBounds(size, minSplit);
    var edge := if pieceSize < ceil then pieceSize else ceil;
    CeilBounds(size, edge);
    EdgeBound(edge, ceil, minSplit);
    Axis(size, edge, CeilDiv(size, edge) - 1, offset)
  }

  lemma CeilBounds(a: nat, b: nat)
    requires 0 < a && 0 < b
    ensures 0 < CeilDiv(a, b)
    ensures b * (CeilDiv(a, b) - 1) < a <= b * CeilDiv(a, b)
  {
    var q := CeilDiv(a, b);
    assert a + b - 1 == b * q + (a + b - 1) % b;
    assert b * (q - 1) == b * q - b;
    Scale(b, q, 0);
  }

  /** Multiplying by a natural number keeps an order. */
  lemma Scale(k: nat, a: int, b: int)
    ensures a <= b ==> k * a <= k * b
  {
  }

  lemma EdgeBound(edge: nat, ceil: nat, minSplit: nat)
    requires edge <= ceil
    ensures edge * minSplit <= minSplit * ceil
  {
  }

  lemma Fits(a: Axis, x: nat)
    requires a.Valid() && x <= a.last
    ensures a.edge * x < a.size
    ensures x < a.last ==> a.edge * x + a.edge <= a.size
  {
    if x < a.last {
      assert a.edge * x + a.edge == a.edge * (x + 1) <= a.edge * a.last;
    }
  }

  lemma PieceOf(a: Axis, c: nat)
    requires a.Valid() && c < a.size
    ensures c / a.edge <= a.last
    ensures c == a.edge * (c / a.edge) + c % a.edge
  {
    Scale(a.edge, a.last + 1, c / a.edge);
  }

  /** Quotient and remainder of a pixel written as piece and position in the piece. */
  lemma Split(edge: nat, x: nat, i: nat)
    requires i < edge
    ensures (edge * x + i) / edge == x && (edge * x + i) % edge == i
  {
    var q, r := (edge * x + i) / edge, (edge * x + i) % edge;
    assert edge * q + r == edge * x + i;
    Scale(edge, q + 1, x);
    Scale(edge, x + 1, q);
  }

  /** The pieces tile the axis exactly once: every pixel lies in one piece and no other. */
  lemma TilesOnce(a: Axis, c: nat)
    requires a.Valid() && c < a.size
    ensures forall x: nat | x <= a.last ::
              (a.edge * x <= c < a.edge * x + a.Extent(x)) <==> x == c / a.edge
  {
    PieceOf(a, c);
    forall x: nat | x <= a.last
      ensures (a.edge * x <= c < a.edge * x + a.Extent(x)) <==> x == c / a.edge
    {
      if a.edge * x <= c < a.edge * x + a.Extent(x) {
        Split(a.edge, x, c - a.edge * x);
      }
    }
  }

  /** The map on piece numbers is its own inverse, and fixes which pieces are full. */
  lemma SlotInvolution(a: Axis, x: nat)
    requires a.Valid() && x <= a.last
    ensures a.Slot(x) <= a.last && (a.Slot(x) == a.last <==> x == a.last)
    ensures a.Slot(a.Slot(x)) == x
  {
    if x < a.last {
      var n, t := a.last, a.last - x + a.offset;
      var q := t / n;
      assert t == n * q + t % n;
      var back := n - t % n + a.offset;
      assert back == x + n * q;
      ModShift(x, n, q);
    }
  }

  lemma ModShift(x: nat, n: nat, q: int)
    requires x < n
    ensures (x + n * q) % n == x
  {
    var s := x + n * q;
    var d := s / n - q;
    assert n * d == x - s % n;
    Scale(n, 1, d);
    Scale(n, d, -1);
  }

  /** The map on pixels stays inside the axis, is its own inverse, and moves whole pieces. */
  lemma SourceInvolution(a: Axis, c: nat)
    requires a.Valid() && c < a.size
    ensures a.Source(c) < a.size
    ensures a.Source(a.Source(c)) == c
  {
    PieceOf(a, c);
    var x, i := c / a.edge, c % a.edge;
    SlotInvolution(a, x);
    var s := a.Slot(x);
    Fits(a, s);
    Split(a.edge, s, i);
  }

  lemma SourceInPiece(a: Axis, x: nat, i: nat)
    requires a.Valid() && x <= a.last && i < a.Extent(x)
    ensures a.edge * x + i < a.size
    ensures a.Source(a.edge * x + i) == a.edge * a.Slot(x) + i
    ensures a.edge * a.Slot(x) + i < a.size
  {
    Fits(a, x);
    Split(a.edge, x, i);
    SourceInvolution(a, a.edge * x + i);
  }

  /** A whole piece still lies inside the image where the map takes it. */
  lemma BlockFits(a: Axis, x: nat)
    requires a.Valid() && x <= a.last
    ensures a.Slot(x) <= a.last && a.edge * a.Slot(x) + a.Extent(x) <= a.size
    ensures a.edge * x + a.Extent(x) <= a.size
    ensures x < a.last ==> a.Extent(x) == a.edge
    ensures x == a.last ==> a.edge * x + a.Extent(x) == a.size
  {
    SlotInvolution(a, x);
    Fits(a, x);
    Fits(a, a.Slot(x));
  }

  // ------------------------------------------------------------ whole images

  /** A rectangular image as its columns. */
  type Pixels<T> = seq<seq<T>>

  ghost predicate Rect<T>(px: Pixels<T>, w: nat, h: nat) {
    |px| == w && forall c :: 0 <= c < w ==> |px[c]| == h
  }

  /** The image whose pixel (c, r) is taken from where both axis maps point. */
  ghost function Permuted<T>(px: Pixels<T>, ax: Axis, ay: Axis): (out: Pixels<T>)
    requires ax.Valid() && ay.Valid() && Rect(px, ax.size, ay.size)
    ensures Rect(out, ax.size, ay.size)
    ensures forall c: nat, r: nat | c < ax.size && r < ay.size ::
              ax.Source(c) < ax.size && ay.Source(r) < ay.size && out[c][r] == px[ax.Source(c)][ay.Source(r)]
  {
    forall c: nat | c < ax.size ensures ax.Source(c) < ax.size { SourceInvolution(ax, c); }
    forall r: nat | r < ay.size ensures ay.Source(r) < ay.size { SourceInvolution(ay, r); }
    seq(ax.size, c requires 0 <= c < ax.size =>
      seq(ay.size, r requires 0 <= r < ay.size => px[ax.Source(c)][ay.Source(r)]))
  }

  /** Permuting twice gives back every pixel: the two directions undo each other. */
  lemma PermutedTwice<T>(px: Pixels<T>, ax: Axis, ay: Axis)
    requires ax.Valid() && ay.Valid() && Rect(px, ax.size, ay.size)
    ensures Permuted(Permuted(px, ax, ay), ax, ay) == px
  {
    var once := Permuted(px, ax, ay);
    var twice := Permuted(once, ax, ay);
    forall c: nat | c < ax.size
      ensures twice[c] == px[c]
    {
      SourceInvolution(ax, c);
      forall r: nat | r < ay.size
        ensures twice[c][r] == px[c][r]
      {
        SourceInvolution(ay, r);
      }
    }
  }

  /** Writing every pixel to where the maps point (the scrambling direction) and reading it
      from there (the reassembling direction) give the same image, and no other image fits. */
  lemma ScatterIsGather<T>(px: Pixels<T>, out: Pixels<T>, ax: Axis, ay: Axis)
    requires ax.Valid() && ay.Valid() && Rect(px, ax.size, ay.size) && Rect(out, ax.size, ay.size)
    ensures Scattered(px, out, ax, ay, ax.size, ay.size) <==> out == Permuted(px, ax, ay)
  {
    var gathered := Permuted(px, ax, ay);
    forall c: nat | c < ax.size
      ensures ax.Source(c) < ax.size && ax.Source(ax.Source(c)) == c
    {
      SourceInvolution(ax, c);
    }
    forall r: nat | r < ay.size
      ensures ay.Source(r) < ay.size && ay.Source(ay.Source(r)) == r
    {
      SourceInvolution(ay, r);
    }
    if Scattered(px, out, ax, ay, ax.size, ay.size) {
      forall c: nat | c < ax.size
        ensures out[c] == gathered[c]
      {
        forall r: nat | r < ay.size
          ensures out[c][r] == gathered[c][r]
        {
          assert out[ax.Source(ax.Source(c))][ay.Source(ay.Source(r))] == px[ax.Source(c)][ay.Source(r)];
        }
      }
    }
  }

  ghost predicate Scattered<T>(px: Pixels<T>, out: Pixels<T>, ax: Axis, ay: Axis, cols: nat, rows: nat)
    requires ax.Valid() && ay.Valid() && Rect(px, ax.size, ay.size) && Rect(out, ax.size, ay.size)
    requires cols <= ax.size && rows <= ay.size
  {
    forall c: nat, r: nat | c < cols && r < rows ::
      ax.Source(c) < ax.size && ay.Source(r) < ay.size && out[ax.Source(c)][ay.Source(r)] == px[c][r]
  }

  // ---------------------------------------------- which piece lands where

  /** Piece `x` and piece `s` change places: the last one stays, and the numbers of any two others
      add up to that of the last and the offset, but for multiples of the last. */
  ghost predicate Trades(a: Axis, x: nat, s: nat) {
    && x <= a.last && s <= a.last
    && if x == a.last then s == a.last else s < a.last && (x + s - a.last - a.offset) % a.last == 0
  }

  lemma SlotTrades(a: Axis, x: nat)
    requires x <= a.last
    ensures Trades(a, x, a.Slot(x))
  {
    if x < a.last {
      var t, n := a.last - x + a.offset, a.last;
      assert t == n * (t / n) + t % n;
      MultipleOf(n, -(t / n));
      assert x + a.Slot(x) - a.last - a.offset == t % n - t == n * -(t / n);
    }
  }

  lemma MultipleOf(n: nat, q: int)
    requires n > 0
    ensures (n * q) % n == 0
  {
    ModShift(0, n, q);
  }

  /** Every piece changes places with just one. */
  lemma TradesOnce(a: Axis, x: nat, s: nat)
    requires a.Valid() && x <= a.last
    ensures Trades(a, x, s) <==> s == a.Slot(x)
  {
    SlotTrades(a, x);
    if x < a.last && Trades(a, x, s) {
      SameMod(a.last, s, a.Slot(x), x - a.last - a.offset);
    }
  }

  lemma SameMod(n: nat, s: nat, t: nat, d: int)
    requires s < n && t < n && (s + d) % n == 0 && (t + d) % n == 0
    ensures s == t
  {
    var p, q := (s + d) / n, (t + d) / n;
    assert s + d == n * p && t + d == n * q;
    assert s - t == n * (p - q);
    Scale(n, 1, p - q);
    Scale(n, p - q, -1);
  }

  /** Pixels `c` and `d` stand at the same place of two pieces that change places. */
  ghost predicate SamePlace(a: Axis, c: nat, d: nat) {
    && 0 < a.edge && c < a.size && d < a.size
    && c % a.edge == d % a.edge && Trades(a, c / a.edge, d / a.edge)
  }

  /** Each block of `out` is, pixel by pixel, the block of `px` its piece changes places with. */
  ghost predicate BlocksTraded<T>(px: Pixels<T>, out: Pixels<T>, ax: Axis, ay: Axis)
    requires Rect(px, ax.size, ay.size) && Rect(out, ax.size, ay.size)
  {
    forall c: nat, d: nat, r: nat, e: nat | SamePlace(ax, c, d) && SamePlace(ay, r, e) :: out[c][r] == px[d][e]
  }

  lemma SourcePlace(a: Axis, c: nat)
    requires a.Valid() && c < a.size
    ensures SamePlace(a, c, a.Source(c))
  {
    PieceOf(a, c);
    var x, i := c / a.edge, c % a.edge;
    var s := a.Slot(x);
    SourceInvolution(a, c);
    SlotTrades(a, x);
    Split(a.edge, s, i);
    assert a.Source(c) / a.edge == s && a.Source(c) % a.edge == i;
  }

  lemma PlaceIsSource(a: Axis, c: nat, d: nat)
    requires a.Valid() && SamePlace(a, c, d)
    ensures d == a.Source(c)
  {
    OnePiece(a, c / a.edge, d / a.edge);
    FromItsPiece(a, c, d);
  }

  lemma OnePiece(a: Axis, x: nat, s: nat)
    requires a.Valid() && Trades(a, x, s)
    ensures x <= a.last && s == a.Slot(x)
  {
    TradesOnce(a, x, s);
  }

  lemma FromItsPiece(a: Axis, c: nat, d: nat)
    requires a.Valid() && c < a.size && d < a.size && c / a.edge <= a.last
    requires d / a.edge == a.Slot(c / a.edge) && d % a.edge == c % a.edge
    ensures d == a.Source(c)
  {
    PieceOf(a, d);
  }

  /** Every pixel of the image stands at the same place as just one, which is where it comes from. */
  lemma OnePlace(a: Axis, c: nat, d: nat)
    requires a.Valid() && c < a.size
    ensures SamePlace(a, c, d) <==> d == a.Source(c)
  {
    SourcePlace(a, c);
    if SamePlace(a, c, d) {
      PlaceIsSource(a, c, d);
    }
  }

  lemma PermutedTrades<T>(px: Pixels<T>, ax: Axis, ay: Axis)
    requires ax.Valid() && ay.Valid() && Rect(px, ax.size, ay.size)
    ensures BlocksTraded(px, Permuted(px, ax, ay), ax, ay)
  {
    var out := Permuted(px, ax, ay);
    forall c: nat, d: nat, r: nat, e: nat | SamePlace(ax, c, d) && SamePlace(ay, r, e)
      ensures out[c][r] == px[d][e]
    {
      OnePlace(ax, c, d);
      OnePlace(ay, r, e);
    }
  }

  // ------------------------------------------------------------------- loops

  ghost function PixelsOf<T>(a: array2<T>): (px: Pixels<T>)
    reads a
    ensures Rect(px, a.Length0, a.Length1)
    ensures forall c, r | 0 <= c < a.Length0 && 0 <= r < a.Length1 :: px[c][r] == a[c, r]
  {
    seq(a.Length0, c requires 0 <= c < a.Length0 reads a =>
      seq(a.Length1, r requires 0 <= r < a.Length1 reads a => a[c, r]))
  }

  /** Crop a block of `src` and paste it into `dst`; both ends lie inside their images. */
  method PasteBlock<T>(src: array2<T>, sx: nat, sy: nat, w: nat, h: nat, dst: array2<T>, dx: nat, dy: nat,
                        ghost fromX: seq<nat>, ghost fromY: seq<nat>)
    requires src != dst
    requires sx + w <= src.Length0 && sy + h <= src.Length1
    requires dx + w <= dst.Length0 == |fromX| && dy + h <= dst.Length1 == |fromY|
    requires forall c | dx <= c < dx + w :: fromX[c] == sx + c - dx
    requires forall r | dy <= r < dy + h :: fromY[r] == sy + r - dy
    modifies dst
    ensures forall c, r | dx <= c < dx + w && dy <= r < dy + h :: dst[c, r] == src[fromX[c], fromY[r]]
    ensures forall c, r | 0 <= c < dst.Length0 && 0 <= r < dst.Length1 && !(dx <= c < dx + w && dy <= r < dy + h) ::
              dst[c, r] == old(dst[c, r])
  {
    forall c, r | dx <= c < dx + w && dy <= r < dy + h {
      dst[c, r] := src[sx + c - dx, sy + r - dy];
    }
  }

  /** One axis of the grid, as both loops set it up; fails on an empty axis. */
  function AxisOf(size: nat, pieceSize: nat, minSplit: nat, offset: int): (r: Outcome<Axis>)
    requires 0 < pieceSize && 0 < minSplit
    ensures r.ZeroDivision? <==> size == 0
    ensures r.Ok? ==> r.value.Valid() && r.value.size == size && r.value.offset == offset
  {
    // A size of 0 gives an edge of 0, and the piece count then divides by it.
    if size == 0 then ZeroDivision else Ok(MakeAxis(size, pieceSize, minSplit, offset))
  }

  /** One axis of a grid as plain tables, so that the loops below need only linear facts:
      for each piece its place, where it comes from and its length; for each pixel its source. */
  datatype Span = Span(dst: nat, src: nat, len: nat)

  datatype Tables = Tables(spans: seq<Span>, source: seq<nat>) {
    /** Pixels before piece `x`. */
    ghost function Done(x: nat): nat
      requires |spans| > 0 && x <= |spans|
    {
      if x < |spans| then spans[x].dst else spans[x - 1].dst + spans[x - 1].len
    }

    ghost predicate Coherent(size: nat) {
      && |spans| > 0 && spans[0].dst == 0 && Done(|spans|) == size && |source| == size
      && (forall x | 0 <= x < |spans| :: Done(x + 1) == spans[x].dst + spans[x].len)
      && (forall x | 0 <= x < |spans| :: spans[x].dst + spans[x].len <= size && spans[x].src + spans[x].len <= size)
      && (forall x, c | 0 <= x < |spans| && spans[x].dst <= c < spans[x].dst + spans[x].len ::
            source[c] == spans[x].src + c - spans[x].dst)
      && (forall c | 0 <= c < size :: source[c] < size)
    }

    ghost predicate Involutive(size: nat)
      requires Coherent(size)
    {
      forall c | 0 <= c < size :: source[source[c]] == c
    }

    /** Piece `x` lands as one block: a pixel is in it exactly when its source is in the piece. */
    ghost predicate LandsAsBlock(x: nat, size: nat)
      requires x < |spans| && |source| == size
    {
      var s := spans[x];
      && Done(x + 1) == s.dst + s.len <= size && s.src + s.len <= size
      && (forall c | 0 <= c < size :: (s.dst <= source[c] < s.dst + s.len) <==> (s.src <= c < s.src + s.len))
      && (forall c | s.src <= c < s.src + s.len :: source[c] == s.dst + c - s.src)
    }

    ghost predicate Lands(size: nat) {
      && |spans| > 0 && spans[0].dst == 0 && Done(|spans|) == size && |source| == size
      && (forall x: nat | x < |spans| :: LandsAsBlock(x, size))
      && (forall c | 0 <= c < size :: source[c] < size)
    }
  }

  function SpanOf(a: Axis, x: nat): Span
    requires a.Valid() && x <= a.last
  {
    Span(a.edge * x, a.edge * a.Slot(x), a.Extent(x))
  }

  /** The pieces of one axis, in the order the loops visit them. */
  function Spans(a: Axis): seq<Span>
    requires a.Valid()
  {
    seq(a.last + 1, x requires 0 <= x <= a.last => SpanOf(a, x))
  }

  lemma TablesOf(a: Axis) returns (t: Tables)
    requires a.Valid()
    ensures t.Coherent(a.size) && t.Involutive(a.size) && t.spans == Spans(a)
    ensures forall c: nat | c < a.size :: t.source[c] == a.Source(c)
  {
    t := Tables(
      Spans(a),
      seq(a.size, c requires 0 <= c < a.size => a.Source(c)));
    forall x: nat | x <= a.last
      ensures t.spans[x].dst + t.spans[x].len <= a.size && t.spans[x].src + t.spans[x].len <= a.size
      ensures t.Done(x + 1) == t.spans[x].dst + t.spans[x].len
    {
      BlockFits(a, x);
      NextStart(a, x);
    }
    BlockFits(a, a.last);
    forall x: nat, c: nat | x <= a.last && t.spans[x].dst <= c < t.spans[x].dst + t.spans[x].len
      ensures c < a.size && t.source[c] == t.spans[x].src + c - t.spans[x].dst
    {
      SpanSource(a, x, c);
    }
    forall c: nat | c < a.size
      ensures a.Source(c) < a.size && t.source[t.source[c]] == c
    {
      SourceInvolution(a, c);
    }
  }

  lemma SpanSource(a: Axis, x: nat, c: nat)
    requires a.Valid() && x <= a.last
    requires SpanOf(a, x).dst <= c < SpanOf(a, x).dst + SpanOf(a, x).len
    ensures c < a.size && a.Source(c) == SpanOf(a, x).src + c - SpanOf(a, x).dst
  {
    SourceInPiece(a, x, c - a.edge * x);
  }

  lemma NextStart(a: Axis, x: nat)
    requires a.Valid() && x <= a.last
    ensures a.Extent(x) == (if x < a.last then a.edge * (x + 1) else a.size) - a.edge * x
  {
    BlockFits(a, x);
  }

  /** The reassembling loop: for each piece, crop it where the map points and paste it in place.
      So each block of the result is the block of the image that its piece trades places with. */
  method Reassemble<T>(img: array2<T>, blank: T, offset: int, pieceSize: nat, minSplit: nat)
    returns (r: Outcome<array2<T>>)
    requires 0 < pieceSize && 0 < minSplit
    ensures r.ZeroDivision? <==> img.Length0 == 0 || img.Length1 == 0
    ensures r.Ok? ==>
              var ax := MakeAxis(img.Length0, pieceSize, minSplit, offset);
              var ay := MakeAxis(img.Length1, pieceSize, minSplit, offset);
              && PixelsOf(r.value) == Permuted(PixelsOf(img), ax, ay)
              && BlocksTraded(PixelsOf(img), PixelsOf(r.value), ax, ay)
  {
    var mx, my := AxisOf(img.Length0, pieceSize, minSplit, offset), AxisOf(img.Length1, pieceSize, minSplit, offset);
    if mx.ZeroDivision? || my.ZeroDivision? {
      return ZeroDivision;
    }
    var dst := new T[img.Length0, img.Length1]((_, _) => blank);
    ghost var tx := TablesOf(mx.value);
    ghost var ty := TablesOf(my.value);
    GatherPieces(img, dst, Spans(mx.value), Spans(my.value), tx, ty);
    TablesPermute(PixelsOf(img), PixelsOf(dst), mx.value, my.value, tx, ty);
    PermutedTrades(PixelsOf(img), mx.value, my.value);
    r := Ok(dst);
  }

  method GatherPieces<T>(img: array2<T>, dst: array2<T>, cols: seq<Span>, rows: seq<Span>, ghost tx: Tables,
      ghost ty: Tables)
    requires img != dst && img.Length0 == dst.Length0 && img.Length1 == dst.Length1
    requires tx.Coherent(dst.Length0) && ty.Coherent(dst.Length1) && cols == tx.spans && rows == ty.spans
    modifies dst
    ensures forall c, r | 0 <= c < dst.Length0 && 0 <= r < dst.Length1 :: dst[c, r] == img[tx.source[c], ty.source[r]]
  {
    ghost var done := 0;
    for x := 0 to |cols|
      invariant done == tx.Done(x) <= dst.Length0
      invariant forall c, r | 0 <= c < done && 0 <= r < dst.Length1 :: dst[c, r] == img[tx.source[c], ty.source[r]]
    {
      var col := cols[x];
      assert col.dst == done && tx.Done(x + 1) == col.dst + col.len;
      GatherColumn(img, dst, col, rows, tx.source, ty);
      done := done + col.len;
    }
  }

  method GatherColumn<T>(img: array2<T>, dst: array2<T>, col: Span, rows: seq<Span>, ghost fromX: seq<nat>,
      ghost ty: Tables)
    requires img != dst && img.Length0 == dst.Length0 == |fromX| && img.Length1 == dst.Length1
    requires col.dst + col.len <= dst.Length0 && col.src + col.len <= dst.Length0
    requires forall c | col.dst <= c < col.dst + col.len :: fromX[c] == col.src + c - col.dst
    requires ty.Coherent(dst.Length1) && rows == ty.spans
    modifies dst
    ensures forall c, r | col.dst <= c < col.dst + col.len && 0 <= r < dst.Length1 ::
              dst[c, r] == img[fromX[c], ty.source[r]]
    ensures forall c, r | 0 <= c < dst.Length0 && !(col.dst <= c < col.dst + col.len) && 0 <= r < dst.Length1 ::
              dst[c, r] == old(dst[c, r])
  {
    ghost var done := 0;
    for y := 0 to |rows|
      invariant done == ty.Done(y) <= dst.Length1
      invariant forall c, r | col.dst <= c < col.dst + col.len && 0 <= r < done ::
                  dst[c, r] == img[fromX[c], ty.source[r]]
      invariant forall c, r | 0 <= c < dst.Length0 && !(col.dst <= c < col.dst + col.len) && 0 <= r < dst.Length1 ::
                  dst[c, r] == old(dst[c, r])
    {
      var row := rows[y];
      assert row.dst == done && ty.Done(y + 1) == row.dst + row.len;
      PasteBlock(img, col.src, row.src, col.len, row.len, dst, col.dst, row.dst, fromX, ty.source);
      done := done + row.len;
    }
  }

  /** The scrambling loop: for each piece, crop it in place and paste it where the map points. So
      each block of the image is the block of the result that its piece trades places with. */
  method Scramble<T>(orig: array2<T>, blank: T, offset: int, pieceSize: nat, minSplit: nat)
    returns (r: Outcome<array2<T>>)
    requires 0 < pieceSize && 0 < minSplit
    ensures r.ZeroDivision? <==> orig.Length0 == 0 || orig.Length1 == 0
    ensures r.Ok? ==>
              var ax := MakeAxis(orig.Length0, pieceSize, minSplit, offset);
              var ay := MakeAxis(orig.Length1, pieceSize, minSplit, offset);
              && PixelsOf(r.value) == Permuted(PixelsOf(orig), ax, ay)
              && BlocksTraded(PixelsOf(r.value), PixelsOf(orig), ax, ay)
  {
    var mx, my := AxisOf(orig.Length0, pieceSize, minSplit, offset), AxisOf(orig.Length1, pieceSize, minSplit, offset);
    if mx.ZeroDivision? || my.ZeroDivision? {
      return ZeroDivision;
    }
    var scrambled := new T[orig.Length0, orig.Length1]((_, _) => blank);
    ghost var tx := TablesOf(mx.value);
    ghost var ty := TablesOf(my.value);
    Landing(tx, orig.Length0);
    Landing(ty, orig.Length1);
    ScatterPieces(orig, scrambled, Spans(mx.value), Spans(my.value), tx, ty);
    TablesPermute(PixelsOf(orig), PixelsOf(scrambled), mx.value, my.value, tx, ty);
    PermutedTwice(PixelsOf(orig), mx.value, my.value);
    PermutedTrades(PixelsOf(scrambled), mx.value, my.value);
    r := Ok(scrambled);
  }

  method ScatterPieces<T>(orig: array2<T>, dst: array2<T>, cols: seq<Span>, rows: seq<Span>, ghost tx: Tables,
      ghost ty: Tables)
    requires orig != dst && orig.Length0 == dst.Length0 && orig.Length1 == dst.Length1
    requires tx.Lands(dst.Length0) && ty.Lands(dst.Length1) && cols == tx.spans && rows == ty.spans
    modifies dst
    ensures forall c, r | 0 <= c < dst.Length0 && 0 <= r < dst.Length1 :: dst[c, r] == orig[tx.source[c], ty.source[r]]
  {
    // A pixel is final once the loop has visited the piece it comes from.
    ghost var done := 0;
    for x := 0 to |cols|
      invariant done == tx.Done(x)
      invariant forall c, r | 0 <= c < dst.Length0 && 0 <= r < dst.Length1 && tx.source[c] < done ::
                  dst[c, r] == orig[tx.source[c], ty.source[r]]
    {
      var col := cols[x];
      assert tx.LandsAsBlock(x, dst.Length0);
      ScatterColumn(orig, dst, col, rows, tx.source, ty);
      done := done + col.len;
    }
  }

  method ScatterColumn<T>(orig: array2<T>, dst: array2<T>, col: Span, rows: seq<Span>, ghost fromX: seq<nat>,
      ghost ty: Tables)
    requires orig != dst && orig.Length0 == dst.Length0 == |fromX| && orig.Length1 == dst.Length1
    requires col.dst + col.len <= dst.Length0 && col.src + col.len <= dst.Length0
    requires forall c | col.src <= c < col.src + col.len :: fromX[c] == col.dst + c - col.src
    requires forall c | 0 <= c < dst.Length0 :: fromX[c] < dst.Length0
    requires ty.Lands(dst.Length1) && rows == ty.spans
    modifies dst
    ensures forall c, r | col.src <= c < col.src + col.len && 0 <= r < dst.Length1 ::
              dst[c, r] == orig[fromX[c], ty.source[r]]
    ensures forall c, r | 0 <= c < dst.Length0 && !(col.src <= c < col.src + col.len) && 0 <= r < dst.Length1 ::
              dst[c, r] == old(dst[c, r])
  {
    ghost var done := 0;
    for y := 0 to |rows|
      invariant done == ty.Done(y)
      invariant forall c, r | col.src <= c < col.src + col.len && 0 <= r < dst.Length1 && ty.source[r] < done ::
                  dst[c, r] == orig[fromX[c], ty.source[r]]
      invariant forall c, r | 0 <= c < dst.Length0 && !(col.src <= c < col.src + col.len) && 0 <= r < dst.Length1 ::
                  dst[c, r] == old(dst[c, r])
    {
      var row := rows[y];
      assert ty.LandsAsBlock(y, dst.Length1);
      PasteBlock(orig, col.dst, row.dst, col.len, row.len, dst, col.src, row.src, fromX, ty.source);
      done := done + row.len;
    }
  }

  /** In coherent tables each piece lands as one block. */
  lemma Landing(t: Tables, size: nat)
    requires t.Coherent(size) && t.Involutive(size)
    ensures t.Lands(size)
  {
    forall x: nat | x < |t.spans|
      ensures t.LandsAsBlock(x, size)
    {
      var s := t.spans[x];
      forall c | 0 <= c < size
        ensures (s.dst <= t.source[c] < s.dst + s.len) <==> (s.src <= c < s.src + s.len)
        ensures s.src <= c < s.src + s.len ==> t.source[c] == s.dst + c - s.src
      {
        assert t.source[t.source[c]] == c;
        if s.src <= c < s.src + s.len {
          assert t.source[s.dst + c - s.src] == c;
        }
      }
    }
  }

  lemma TablesPermute<T>(px: Pixels<T>, out: Pixels<T>, ax: Axis, ay: Axis, tx: Tables, ty: Tables)
    requires ax.Valid() && ay.Valid() && Rect(px, ax.size, ay.size) && Rect(out, ax.size, ay.size)
    requires |tx.source| == ax.size && |ty.source| == ay.size
    requires forall c: nat | c < ax.size :: tx.source[c] == ax.Source(c) < ax.size
    requires forall r: nat | r < ay.size :: ty.source[r] == ay.Source(r) < ay.size
    requires forall c, r | 0 <= c < ax.size && 0 <= r < ay.size :: out[c][r] == px[tx.source[c]][ty.source[r]]
    ensures out == Permuted(px, ax, ay)
  {
    var want := Permuted(px, ax, ay);
    forall c | 0 <= c < ax.size
      ensures out[c] == want[c]
    {
      assert forall r | 0 <= r < ay.size :: out[c][r] == want[c][r];
    }
  }

  /** Reassembling a scrambled image, and scrambling a reassembled one, give back every pixel. */
  method RoundTrips<T>(img: array2<T>, blank: T, offset: int, pieceSize: nat, minSplit: nat)
    returns (unscrambled: Outcome<array2<T>>, rescrambled: Outcome<array2<T>>)
    requires 0 < pieceSize && 0 < minSplit
    ensures unscrambled.Ok? <==> img.Length0 > 0 && img.Length1 > 0
    ensures rescrambled.Ok? <==> img.Length0 > 0 && img.Length1 > 0
    ensures unscrambled.Ok? ==> PixelsOf(unscrambled.value) == PixelsOf(img)
    ensures rescrambled.Ok? ==> PixelsOf(rescrambled.value) == PixelsOf(img)
  {
    var forward := Scramble(img, blank, offset, pieceSize, minSplit);
    var backward := Reassemble(img, blank, offset, pieceSize, minSplit);
    if forward.ZeroDivision? {
      return ZeroDivision, ZeroDivision;
    }
    ghost var px := PixelsOf(img);
    PermutedTwice(px, MakeAxis(img.Length0, pieceSize, minSplit, offset),
      MakeAxis(img.Length1, pieceSize, minSplit, offset));
    assert forward.value.Length0 == |PixelsOf(forward.value)| == img.Length0;
    assert forward.value.Length1 == |PixelsOf(forward.value)[0]| == img.Length1;
    assert backward.value.Length0 == |PixelsOf(backward.value)| == img.Length0;
    assert backward.value.Length1 == |PixelsOf(backward.value)[0]| == img.Length1;
    unscrambled := Reassemble(forward.value, blank, offset, pieceSize, minSplit);
    rescrambled := Scramble(backward.value, blank, offset, pieceSize, minSplit);
  }
}
