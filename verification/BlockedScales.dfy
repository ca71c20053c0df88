/**
 The blocked layout the scaled matrix product wants its block scales in: 128 x 4 tiles, each laid out as
 32 x 16. Going there and back is a permutation of the padded matrix.
 */
module BlockedScales {
  import opened Arithmetic
  import opened Wrappers

  // ----- Exchanging the middle axes -----

  /** Row-major position of (i, j, k, l) in a tensor of shape [_, d1, d2, d3]. */
  function Place4(i: nat, j: nat, k: nat, l: nat, d1: nat, d2: nat, d3: nat): nat {
    Flat(Flat(Flat(i, j, d1), k, d2), l, d3)
  }

  /**
   Where element p of the exchanged tensor, of shape [_, d2, d1, d3], comes from in the original one, of
   shape [_, d1, d2, d3].
   */
  function Source(p: nat, d1: nat, d2: nat, d3: nat): nat
    requires d1 > 0 && d2 > 0 && d3 > 0
  {
    var a: nat := p / d3;
    var b: nat := a / d1;
    Place4(b / d2, a % d1, b % d2, p % d3, d1, d2, d3)
  }

  lemma SourceOf(i: nat, j: nat, k: nat, l: nat, d1: nat, d2: nat, d3: nat)
    requires j < d1 && k < d2 && l < d3
    ensures Source(Place4(i, k, j, l, d2, d1, d3), d1, d2, d3) == Place4(i, j, k, l, d1, d2, d3)
  {
    var a := Flat(i, k, d2);
    var b := Flat(a, j, d1);
    FlatSplits(i, k, d2);
    FlatSplits(a, j, d1);
    FlatSplits(b, l, d3);
  }

  lemma Digits(p: nat, d0: nat, d1: nat, d2: nat, d3: nat) returns (i: nat, j: nat, k: nat, l: nat)
    requires d1 > 0 && d2 > 0 && d3 > 0 && p < d0 * d1 * d2 * d3
    ensures i < d0 && j < d1 && k < d2 && l < d3 && Place4(i, j, k, l, d1, d2, d3) == p
  {
    var a := p / d3;
    var b := a / d2;
    QuotientBelow(p, d0 * d1 * d2, d3);
    QuotientBelow(a, d0 * d1, d2);
    QuotientBelow(b, d0, d1);
    i, j, k, l := b / d1, b % d1, a % d2, p % d3;
  }

  lemma Place4Below(i: nat, j: nat, k: nat, l: nat, d0: nat, d1: nat, d2: nat, d3: nat)
    requires i < d0 && j < d1 && k < d2 && l < d3
    ensures Place4(i, j, k, l, d1, d2, d3) < d0 * d1 * d2 * d3
  {
    FlatBelow(i, j, d0, d1);
    FlatBelow(Flat(i, j, d1), k, d0 * d1, d2);
    FlatBelow(Flat(Flat(i, j, d1), k, d2), l, d0 * d1 * d2, d3);
  }

  lemma FactorsExchange(d0: nat, d1: nat, d2: nat)
    ensures d0 * d1 * d2 == d0 * d2 * d1
  {
  }

  lemma SourceBelow(p: nat, d0: nat, d1: nat, d2: nat, d3: nat)
    requires d1 > 0 && d2 > 0 && d3 > 0 && p < d0 * d1 * d2 * d3
    ensures Source(p, d1, d2, d3) < d0 * d1 * d2 * d3
    ensures Source(Source(p, d1, d2, d3), d2, d1, d3) == p
  {
    FactorsExchange(d0, d1, d2);
    var i, k, j, l := Digits(p, d0, d2, d1, d3);
    SourceOf(i, j, k, l, d1, d2, d3);
    Place4Below(i, j, k, l, d0, d1, d2, d3);
    SourceOf(i, k, j, l, d2, d1, d3);
  }

  /** permute(0, 2, 1, 3) of a contiguous tensor of shape [d0, d1, d2, d3]. */
  function Exchange<T>(x: seq<T>, d0: nat, d1: nat, d2: nat, d3: nat): (y: seq<T>)
    requires d1 > 0 && d2 > 0 && d3 > 0 && |x| == d0 * d1 * d2 * d3
    ensures |y| == |x|
  {
    seq(|x|, p requires 0 <= p < |x| => SourceBelow(p, d0, d1, d2, d3); x[Source(p, d1, d2, d3)])
  }

  lemma ExchangeTwice<T>(x: seq<T>, d0: nat, d1: nat, d2: nat, d3: nat)
    requires d1 > 0 && d2 > 0 && d3 > 0 && |x| == d0 * d1 * d2 * d3
    ensures |x| == d0 * d2 * d1 * d3
    ensures Exchange(Exchange(x, d0, d1, d2, d3), d0, d2, d1, d3) == x
  {
    FactorsExchange(d0, d1, d2);
    var y := Exchange(x, d0, d1, d2, d3);
    var z := Exchange(y, d0, d2, d1, d3);
    forall p | 0 <= p < |x|
      ensures z[p] == x[p]
    {
      SourceBelow(p, d0, d2, d1, d3);
    }
  }

  lemma Exchanged<T>(x: seq<T>, i: nat, j: nat, k: nat, l: nat, d0: nat, d1: nat, d2: nat, d3: nat)
    requires i < d0 && j < d1 && k < d2 && l < d3 && |x| == d0 * d1 * d2 * d3
    ensures Place4(i, k, j, l, d2, d1, d3) < |x| && Place4(i, j, k, l, d1, d2, d3) < |x|
    ensures Exchange(x, d0, d1, d2, d3)[Place4(i, k, j, l, d2, d1, d3)] == x[Place4(i, j, k, l, d1, d2, d3)]
  {
    FactorsExchange(d0, d1, d2);
    Place4Below(i, k, j, l, d0, d2, d1, d3);
    Place4Below(i, j, k, l, d0, d1, d2, d3);
    SourceOf(i, j, k, l, d1, d2, d3);
  }

  // ----- The layout -----

  type Matrix<T> = seq<seq<T>>

  predicate IsMatrix<T>(m: Matrix<T>, rows: nat, cols: nat) {
    |m| == rows && forall r :: 0 <= r < rows ==> |m[r]| == cols
  }

  /** Blocks of d that hold n. */
  function Blocks(n: nat, d: nat): (b: nat)
    requires n > 0 && d > 0
    ensures b > 0 && (b - 1) * d < n <= b * d
  {
    (n + d - 1) / d
  }

  /** Elements of the padded buffer: rb blocks of 128 rows, cb blocks of 4 columns. */
  function Size(rb: nat, cb: nat): nat {
    rb * 128 * cb * 4
  }

  lemma SizeForms(rb: nat, cb: nat)
    ensures Size(rb, cb) == rb * cb * 128 * 4 == rb * cb * 4 * 32 * 4 == rb * cb * 32 * 4 * 4
    ensures Size(rb, cb) == rb * cb * 512 == rb * 128 * (cb * 4)
  {
    var z := rb * cb;
    assert rb * 128 * cb == 128 * z;
  }

  /** Row-major padded buffer to tiles: the two axis exchanges. */
  function ToTiles<T>(padded: seq<T>, rb: nat, cb: nat): (blocked: seq<T>)
    requires cb > 0 && |padded| == Size(rb, cb)
    ensures |blocked| == |padded|
  {
    SizeForms(rb, cb);
    Exchange(Exchange(padded, rb, 128, cb, 4), rb * cb, 4, 32, 4)
  }

  function FromTiles<T>(blocked: seq<T>, rb: nat, cb: nat): (padded: seq<T>)
    requires cb > 0 && |blocked| == Size(rb, cb)
    ensures |padded| == |blocked|
  {
    SizeForms(rb, cb);
    Exchange(Exchange(blocked, rb * cb, 32, 4, 4), rb, cb, 128, 4)
  }

  /** Where element (r, c) of the padded matrix lands. */
  function Place(r: nat, c: nat, cb: nat): nat {
    ((r / 128) * cb + c / 4) * 512 + (r % 32) * 16 + (r % 128) / 32 * 4 + c % 4
  }

  /** The two directions undo each other on whole buffers. */
  lemma TilesRoundTrip<T>(x: seq<T>, rb: nat, cb: nat)
    requires cb > 0 && |x| == Size(rb, cb)
    ensures FromTiles(ToTiles(x, rb, cb), rb, cb) == x
    ensures ToTiles(FromTiles(x, rb, cb), rb, cb) == x
  {
    SizeForms(rb, cb);
    ExchangeTwice(x, rb, 128, cb, 4);
    ExchangeTwice(Exchange(x, rb, 128, cb, 4), rb * cb, 4, 32, 4);
    ExchangeTwice(x, rb * cb, 32, 4, 4);
    ExchangeTwice(Exchange(x, rb * cb, 32, 4, 4), rb, cb, 128, 4);
  }

  /** The tile form of the row-major position. */
  lemma RowMajor(rb: nat, r: nat, cbi: nat, l: nat, cb: nat)
    ensures Place4(rb, r, cbi, l, 128, cb, 4) == (rb * 128 + r) * (cb * 4) + (cbi * 4 + l)
  {
    var row := rb * 128 + r;
    assert (row * cb + cbi) * 4 + l == row * (cb * 4) + (cbi * 4 + l) by {
      FourTimes(row, cb);
    }
  }

  lemma FourTimes(a: nat, b: nat)
    ensures a * b * 4 == a * (b * 4)
  {
  }

  lemma PlaceForm(r: nat, c: nat, cb: nat)
    ensures var t := Flat(r / 128, c / 4, cb); var q := r % 128 / 32; var s := r % 128 % 32;
      && Place(r, c, cb) == Place4(t, s, q, c % 4, 32, 4, 4)
      && Place4(t, q, s, c % 4, 4, 32, 4) == Place4(r / 128, c / 4, r % 128, c % 4, cb, 128, 4)
  {
    assert r % 128 % 32 == r % 32;
    assert r % 128 == r % 128 / 32 * 32 + r % 128 % 32;
  }

  lemma BlockIndices(r: nat, c: nat, rb: nat, cb: nat)
    requires r < rb * 128 && c < cb * 4
    ensures r / 128 < rb && c / 4 < cb && Flat(r / 128, c / 4, cb) < rb * cb
    ensures r * (cb * 4) + c == Flat(r, c, cb * 4) < Size(rb, cb)
  {
    FlatBelow(r / 128, c / 4, rb, cb);
    FlatBelow(r, c, rb * 128, cb * 4);
    SizeForms(rb, cb);
  }

  /** Row 32 q + s of row block i, column l of column block j. */
  lemma PlacedInTile<T>(x: seq<T>, i: nat, q: nat, s: nat, j: nat, l: nat, rb: nat, cb: nat)
    requires cb > 0 && |x| == Size(rb, cb) && i < rb && q < 4 && s < 32 && j < cb && l < 4
    ensures Place4(Flat(i, j, cb), s, q, l, 32, 4, 4) < |x| && Place4(i, q * 32 + s, j, l, 128, cb, 4) < |x|
    ensures ToTiles(x, rb, cb)[Place4(Flat(i, j, cb), s, q, l, 32, 4, 4)] == x[Place4(i, q * 32 + s, j, l, 128, cb, 4)]
  {
    SizeForms(rb, cb);
    var y := Exchange(x, rb, 128, cb, 4);
    Exchanged(x, i, q * 32 + s, j, l, rb, 128, cb, 4);
    FlatBelow(i, j, rb, cb);
    Exchanged(y, Flat(i, j, cb), q, s, l, rb * cb, 4, 32, 4);
  }

  /** Element (r, c) of the padded buffer lands at its place. */
  lemma Placed<T>(x: seq<T>, r: nat, c: nat, rb: nat, cb: nat)
    requires cb > 0 && |x| == Size(rb, cb) && r < rb * 128 && c < cb * 4
    ensures Place(r, c, cb) < |x| && r * (cb * 4) + c < |x|
    ensures ToTiles(x, rb, cb)[Place(r, c, cb)] == x[r * (cb * 4) + c]
  {
    var i, j, q, s, l := TileOf(r, c, rb, cb);
    PlacedInTile(x, i, q, s, j, l, rb, cb);
  }

  lemma TileOf(r: nat, c: nat, rb: nat, cb: nat) returns (i: nat, j: nat, q: nat, s: nat, l: nat)
    requires r < rb * 128 && c < cb * 4
    ensures i < rb && j < cb && q < 4 && s < 32 && l < 4
    ensures Place(r, c, cb) == Place4(Flat(i, j, cb), s, q, l, 32, 4, 4)
    ensures r * (cb * 4) + c == Place4(i, q * 32 + s, j, l, 128, cb, 4)
  {
    i, j, l := r / 128, c / 4, c % 4;
    q, s := r % 128 / 32, r % 128 % 32;
    BlockIndices(r, c, rb, cb);
    PlaceForm(r, c, cb);
    RowMajor(i, q * 32 + s, j, l, cb);
  }

  /** And comes back from it. */
  lemma Unplaced<T>(x: seq<T>, r: nat, c: nat, rb: nat, cb: nat)
    requires cb > 0 && |x| == Size(rb, cb) && r < rb * 128 && c < cb * 4
    ensures Place(r, c, cb) < |x| && r * (cb * 4) + c < |x|
    ensures FromTiles(x, rb, cb)[r * (cb * 4) + c] == x[Place(r, c, cb)]
  {
    Placed(FromTiles(x, rb, cb), r, c, rb, cb);
    TilesRoundTrip(x, rb, cb);
  }

  /** No two elements of the padded matrix share a place. */
  lemma PlaceIsOneToOne(r1: nat, c1: nat, r2: nat, c2: nat, rb: nat, cb: nat)
    requires cb > 0 && r1 < rb * 128 && c1 < cb * 4 && r2 < rb * 128 && c2 < cb * 4
    requires Place(r1, c1, cb) == Place(r2, c2, cb)
    ensures r1 == r2 && c1 == c2
  {
    var positions := seq(Size(rb, cb), p => p);
    Placed(positions, r1, c1, rb, cb);
    Placed(positions, r2, c2, rb, cb);
    FlatSplits(r1, c1, cb * 4);
    FlatSplits(r2, c2, cb * 4);
  }

  lemma TileSource<T>(x: seq<T>, p: nat, rb: nat, cb: nat) returns (from: nat)
    requires cb > 0 && |x| == Size(rb, cb) && p < Size(rb, cb)
    ensures from < |x| && ToTiles(x, rb, cb)[p] == x[from]
  {
    SizeForms(rb, cb);
    var middle := Source(p, 4, 32, 4);
    SourceBelow(p, rb * cb, 4, 32, 4);
    SourceBelow(middle, rb, 128, cb, 4);
    from := Source(middle, 128, cb, 4);
  }

  lemma RowAndColumn(from: nat, rb: nat, cb: nat) returns (r: nat, c: nat)
    requires cb > 0 && from < Size(rb, cb)
    ensures r < rb * 128 && c < cb * 4 && r * (cb * 4) + c == from
  {
    assert from < rb * 128 * (cb * 4) by {
      SizeForms(rb, cb);
    }
    r, c := SplitFlat(from, rb * 128, cb * 4);
  }

  /** Every position of the buffer is some element's place. */
  lemma PlaceIsOnto(p: nat, rb: nat, cb: nat) returns (r: nat, c: nat)
    requires cb > 0 && p < Size(rb, cb)
    ensures r < rb * 128 && c < cb * 4 && Place(r, c, cb) == p
  {
    var positions := seq(Size(rb, cb), i => i);
    var rowMajor := FromTiles(positions, rb, cb);
    var from := TileSource(rowMajor, p, rb, cb);
    r, c := RowAndColumn(from, rb, cb);
    assert rowMajor[from] == p by {
      TilesRoundTrip(positions, rb, cb);
    }
    Unplaced(positions, r, c, rb, cb);
  }

  // ----- Matrices -----

  /** Position p of the padded buffer after the first `filled` rows have been copied in. */
  function PaddedAt<T>(m: Matrix<T>, filled: nat, cols: nat, width: nat, zero: T, p: nat): T
    requires filled <= |m| && width > 0 && forall r :: 0 <= r < |m| ==> |m[r]| == cols
  {
    var r: nat, c: nat := p / width, p % width;
    if r < filled && c < cols then m[r][c] else zero
  }

  function Padded<T>(m: Matrix<T>, rows: nat, cols: nat, zero: T): (x: seq<T>)
    requires rows > 0 && cols > 0 && IsMatrix(m, rows, cols)
    ensures |x| == Size(Blocks(rows, 128), Blocks(cols, 4))
  {
    seq(Size(Blocks(rows, 128), Blocks(cols, 4)), p requires 0 <= p =>
      PaddedAt(m, rows, cols, Blocks(cols, 4) * 4, zero, p))
  }

  function ToBlocked<T>(m: Matrix<T>, rows: nat, cols: nat, zero: T): seq<T>
    requires rows > 0 && cols > 0 && IsMatrix(m, rows, cols)
  {
    ToTiles(Padded(m, rows, cols, zero), Blocks(rows, 128), Blocks(cols, 4))
  }

  function FromBlocked<T>(blocked: seq<T>, rows: nat, cols: nat): (r: Result<Matrix<T>>)
    requires rows > 0 && cols > 0
    ensures r.Success? ==> IsMatrix(r.value, rows, cols)
  {
    var rb, cb := Blocks(rows, 128), Blocks(cols, 4);
    if |blocked| != rb * cb * 32 * 16 then Failure("GLM5X_NVFP4_SCALE_LENGTH")
    else
      SizeForms(rb, cb);
      var x := FromTiles(blocked, rb, cb);
      Success(seq(rows, r requires 0 <= r < rows =>
        seq(cols, c requires 0 <= c < cols =>
          BlockIndices(r, c, rb, cb);
          x[r * (cb * 4) + c])))
  }

  ghost predicate RowsFilled<T>(padded: array<T>, m: Matrix<T>, filled: nat, cols: nat, width: nat, zero: T)
    requires filled <= |m| && width > 0 && forall r :: 0 <= r < |m| ==> |m[r]| == cols
    reads padded
  {
    forall p: nat :: p < padded.Length ==> padded[p] == PaddedAt(m, filled, cols, width, zero, p)
  }

  lemma NoneFilled<T>(padded: array<T>, m: Matrix<T>, cols: nat, width: nat, zero: T)
    requires width > 0 && forall r :: 0 <= r < |m| ==> |m[r]| == cols
    requires forall p: nat :: p < padded.Length ==> padded[p] == zero
    ensures RowsFilled(padded, m, 0, cols, width, zero)
  {
    forall p: nat | p < padded.Length
      ensures PaddedAt(m, 0, cols, width, zero, p) == zero
    {
      assert p / width >= 0;
    }
  }

  method FillRow<T>(padded: array<T>, m: Matrix<T>, r: nat, cols: nat, width: nat, zero: T, padRows: nat)
    requires r < |m| <= padRows && cols <= width && width > 0 && forall i :: 0 <= i < |m| ==> |m[i]| == cols
    requires padded.Length == padRows * width
    requires RowsFilled(padded, m, r, cols, width, zero)
    modifies padded
    ensures RowsFilled(padded, m, r + 1, cols, width, zero)
  {
    var start := r * width;
    FlatBelow(r, width - 1, padRows, width);
    for c := 0 to cols
      invariant forall p: nat :: p < padded.Length ==>
        padded[p] == if start <= p < start + c then m[r][p - start] else PaddedAt(m, r, cols, width, zero, p)
    {
      padded[start + c] := m[r][c];
    }
    forall p: nat | p < padded.Length
      ensures padded[p] == PaddedAt(m, r + 1, cols, width, zero, p)
    {
      RowOf(p, r, width);
    }
  }

  method FillRows<T>(padded: array<T>, m: Matrix<T>, cols: nat, width: nat, zero: T, padRows: nat)
    requires |m| <= padRows && cols <= width && width > 0 && forall i :: 0 <= i < |m| ==> |m[i]| == cols
    requires padded.Length == padRows * width && RowsFilled(padded, m, 0, cols, width, zero)
    modifies padded
    ensures RowsFilled(padded, m, |m|, cols, width, zero)
  {
    for r := 0 to |m|
      invariant RowsFilled(padded, m, r, cols, width, zero)
    {
      FillRow(padded, m, r, cols, width, zero, padRows);
    }
  }

  /** Filling the zeroed buffer row by row, then exchanging the axes. */
  method FillBlocked<T>(m: Matrix<T>, rows: nat, cols: nat, zero: T) returns (blocked: seq<T>)
    requires rows > 0 && cols > 0 && IsMatrix(m, rows, cols)
    ensures blocked == ToBlocked(m, rows, cols, zero)
  {
    var rb, cb := Blocks(rows, 128), Blocks(cols, 4);
    var width, padRows := cb * 4, rb * 128;
    var size := Size(rb, cb);
    assert size == padRows * width by {
      SizeForms(rb, cb);
    }
    var padded := new T[size](_ => zero);
    NoneFilled(padded, m, cols, width, zero);
    FillRows(padded, m, cols, width, zero, padRows);
    assert padded[..] == Padded(m, rows, cols, zero);
    blocked := ToTiles(padded[..], rb, cb);
  }

  lemma RowOf(p: nat, r: nat, width: nat)
    requires width > 0
    ensures p / width == r <==> r * width <= p < r * width + width
    ensures p / width == r ==> p % width == p - r * width
  {
    if r * width <= p < r * width + width {
      FlatSplits(r, p - r * width, width);
    }
  }

  lemma PaddedElement<T>(m: Matrix<T>, rows: nat, cols: nat, zero: T, r: nat, c: nat)
    requires rows > 0 && cols > 0 && IsMatrix(m, rows, cols)
    requires r < Blocks(rows, 128) * 128 && c < Blocks(cols, 4) * 4
    ensures var x := Padded(m, rows, cols, zero); var p := r * (Blocks(cols, 4) * 4) + c;
      p < |x| && x[p] == if r < rows && c < cols then m[r][c] else zero
  {
    BlockIndices(r, c, Blocks(rows, 128), Blocks(cols, 4));
    FlatSplits(r, c, Blocks(cols, 4) * 4);
  }

  /** Every element of the matrix is at its place in the blocked buffer, and every other place holds zero. */
  lemma BlockedElement<T>(m: Matrix<T>, rows: nat, cols: nat, zero: T, r: nat, c: nat)
    requires rows > 0 && cols > 0 && IsMatrix(m, rows, cols)
    requires r < Blocks(rows, 128) * 128 && c < Blocks(cols, 4) * 4
    ensures var blocked := ToBlocked(m, rows, cols, zero); var p := Place(r, c, Blocks(cols, 4));
      p < |blocked| && blocked[p] == if r < rows && c < cols then m[r][c] else zero
  {
    Placed(Padded(m, rows, cols, zero), r, c, Blocks(rows, 128), Blocks(cols, 4));
    PaddedElement(m, rows, cols, zero, r, c);
  }

  /** The length check accepts exactly the blocked size, and each element is read from its place. */
  lemma UnblockedElement<T>(blocked: seq<T>, rows: nat, cols: nat, r: nat, c: nat)
    requires rows > 0 && cols > 0 && r < rows && c < cols
    ensures FromBlocked(blocked, rows, cols).Success? <==> |blocked| == Size(Blocks(rows, 128), Blocks(cols, 4))
    ensures FromBlocked(blocked, rows, cols).Success? ==>
      var p := Place(r, c, Blocks(cols, 4));
      p < |blocked| && FromBlocked(blocked, rows, cols).value[r][c] == blocked[p]
  {
    SizeForms(Blocks(rows, 128), Blocks(cols, 4));
    if FromBlocked(blocked, rows, cols).Success? {
      Unplaced(blocked, r, c, Blocks(rows, 128), Blocks(cols, 4));
    }
  }

  lemma RoundTripElement<T>(m: Matrix<T>, rows: nat, cols: nat, zero: T, r: nat, c: nat)
    requires rows > 0 && cols > 0 && IsMatrix(m, rows, cols) && r < rows && c < cols
    ensures var back := FromBlocked(ToBlocked(m, rows, cols, zero), rows, cols);
      back.Success? && back.value[r][c] == m[r][c]
  {
    UnblockedElement(ToBlocked(m, rows, cols, zero), rows, cols, r, c);
    BlockedElement(m, rows, cols, zero, r, c);
  }

  lemma SameMatrix<T>(a: Matrix<T>, b: Matrix<T>, rows: nat, cols: nat)
    requires IsMatrix(a, rows, cols) && IsMatrix(b, rows, cols)
    requires forall r, c :: 0 <= r < rows && 0 <= c < cols ==> a[r][c] == b[r][c]
    ensures a == b
  {
    forall r | 0 <= r < rows
      ensures a[r] == b[r]
    {
    }
  }

  /** Blocking and unblocking gives every matrix back. */
  lemma BlockedRoundTrip<T>(m: Matrix<T>, rows: nat, cols: nat, zero: T)
    requires rows > 0 && cols > 0 && IsMatrix(m, rows, cols)
    ensures FromBlocked(ToBlocked(m, rows, cols, zero), rows, cols) == Success(m)
  {
    var result := FromBlocked(ToBlocked(m, rows, cols, zero), rows, cols);
    RoundTripElement(m, rows, cols, zero, 0, 0);
    var back := result.value;
    forall r, c | 0 <= r < rows && 0 <= c < cols
      ensures back[r][c] == m[r][c]
    {
      RoundTripElement(m, rows, cols, zero, r, c);
    }
    SameMatrix(back, m, rows, cols);
  }
}
