/**
 The QR rasteriser (internal/breakglass/qr.go). The encoder's module grid is
 the input, as rows of red-channel values; the PNG encoding of the finished
 image is not part of this model.
 */
module QrRaster {

  /** Section 6.3.8 of ISO/IEC 18004:2015: four modules of white on every side. */
  const QUIET_MODULES := 4
  const WHITE := 0xff
  const BLACK := 0x00

  type Grid = seq<seq<int>>

  predicate Square(grid: Grid) {
    forall y :: 0 <= y < |grid| ==> |grid[y]| == |grid|
  }

  /** Go's integer division, which truncates toward zero. */
  function Quotient(a: int, b: int): int
    requires 0 < b
  {
    if 0 <= a then a / b else -((-a) / b)
  }

  function Total(grid: Grid): (n: int)
    ensures 0 < n
  {
    |grid| + 2 * QUIET_MODULES
  }

  function Scale(grid: Grid, size: int): (s: int)
    ensures 1 <= s
  {
    var s := Quotient(size, Total(grid));
    if s < 1 then 1 else s
  }

  function Dim(grid: Grid, size: int): (d: int)
    ensures |grid| + 2 * QUIET_MODULES <= d
  {
    Monotone(1, Scale(grid, size), Total(grid));
    Total(grid) * Scale(grid, size)
  }

  lemma Monotone(a: int, b: int, c: int)
    requires a <= b && 0 <= c
    ensures a * c <= b * c
  {
  }

  /** One more row, module or block: (a + 1) * c is c past a * c. */
  lemma NextMultiple(a: int, b: int, c: int)
    requires a < b && 0 <= c
    ensures a * c + c <= b * c
  {
    Monotone(a + 1, b, c);
    assert (a + 1) * c == a * c + c;
  }

  predicate Dark(grid: Grid, mx: int, my: int)
    requires Square(grid)
  {
    0 <= mx < |grid| && 0 <= my < |grid| && grid[my][mx] < 0x8000
  }

  /** The colour of pixel (x, y), read off the grid. */
  function Shade(grid: Grid, scale: int, x: int, y: int): int
    requires Square(grid) && 1 <= scale
  {
    if Dark(grid, x / scale - QUIET_MODULES, y / scale - QUIET_MODULES) then BLACK else WHITE
  }

  /** Where pixel (x, y) sits in the flat array. */
  function Index(dim: int, x: int, y: int): int { y * dim + x }

  lemma IndexInBounds(dim: int, x: int, y: int)
    requires 0 <= x < dim && 0 <= y < dim
    ensures 0 <= Index(dim, x, y) < dim * dim
  {
    Monotone(0, y, dim);
    NextMultiple(y, dim, dim);
  }

  lemma IndexInjective(dim: int, x: int, y: int, a: int, b: int)
    requires 0 <= x < dim && 0 <= y < dim && 0 <= a < dim && 0 <= b < dim
    requires Index(dim, x, y) == Index(dim, a, b)
    ensures x == a && y == b
  {
    if y < b {
      NextMultiple(y, b, dim);
    } else if b < y {
      NextMultiple(b, y, dim);
    }
  }

  /** The array shows `colour` at every pixel. */
  ghost predicate Shows(pix: seq<int>, dim: int, colour: (int, int) -> int)
    requires |pix| == dim * dim
  {
    forall x, y :: 0 <= x < dim && 0 <= y < dim ==>
      0 <= Index(dim, x, y) < dim * dim && pix[Index(dim, x, y)] == colour(x, y)
  }

  predicate InBlock(x: int, y: int, x0: int, y0: int, w: int, h: int) {
    x0 <= x < x0 + w && y0 <= y < y0 + h
  }

  /** No other pixel shares an index. */
  lemma OnlyPixel(dim: int, x0: int, y0: int)
    requires 0 <= x0 < dim && 0 <= y0 < dim
    ensures forall x, y :: 0 <= x < dim && 0 <= y < dim && Index(dim, x, y) == Index(dim, x0, y0) ==> x == x0 && y == y0
  {
    forall x, y | 0 <= x < dim && 0 <= y < dim && Index(dim, x, y) == Index(dim, x0, y0) ensures x == x0 && y == y0 {
      IndexInjective(dim, x, y, x0, y0);
    }
  }

  /** Fill a scale by scale block with black, touching nothing else. */
  method FillBlock(pix: array<int>, dim: int, x0: int, y0: int, scale: int, ghost colour: (int, int) -> int)
    requires 0 <= x0 && 0 <= y0 && 1 <= scale && x0 + scale <= dim && y0 + scale <= dim
    requires pix.Length == dim * dim && Shows(pix[..], dim, colour)
    modifies pix
    ensures Shows(pix[..], dim, (x, y) => if InBlock(x, y, x0, y0, scale, scale) then BLACK else colour(x, y))
  {
    for dy := 0 to scale
      invariant Shows(pix[..], dim, (x, y) => if InBlock(x, y, x0, y0, scale, dy) then BLACK else colour(x, y))
    {
      var row := (y0 + dy) * dim + x0;
      ghost var full := (x, y) => if InBlock(x, y, x0, y0, scale, dy) then BLACK else colour(x, y);
      for dx := 0 to scale
        invariant Shows(pix[..], dim, (x, y) => if InBlock(x, y, x0, y0 + dy, dx, 1) then BLACK else full(x, y))
      {
        assert row + dx == Index(dim, x0 + dx, y0 + dy);
        IndexInBounds(dim, x0 + dx, y0 + dy);
        OnlyPixel(dim, x0 + dx, y0 + dy);
        pix[row + dx] := BLACK;
      }
    }
  }

  /** Module (mx, my) is dark and comes before (toX, toY) in row order. */
  predicate DarkBefore(grid: Grid, mx: int, my: int, toX: int, toY: int)
    requires Square(grid)
  {
    Dark(grid, mx, my) && (my < toY || (my == toY && mx < toX))
  }

  /** The image part-way: only the dark modules before (toX, toY) are drawn. */
  function ShadeSoFar(grid: Grid, scale: int, x: int, y: int, toX: int, toY: int): int
    requires Square(grid) && 1 <= scale
  {
    if DarkBefore(grid, x / scale - QUIET_MODULES, y / scale - QUIET_MODULES, toX, toY) then BLACK else WHITE
  }

  /** A pixel lies in a module's block exactly when dividing by the scale gives the module. */
  lemma BlockIsQuotient(scale: int, x: int, m: int)
    requires 1 <= scale
    ensures m * scale <= x < m * scale + scale <==> x / scale == m
  {
    var q := x / scale;
    assert q * scale <= x < q * scale + scale;
    if q < m {
      NextMultiple(q, m, scale);
    } else if m < q {
      NextMultiple(m, q, scale);
    }
  }

  /** A module's block lies inside the image. */
  lemma BlockFits(mods: int, scale: int, m: int)
    requires 0 <= m < mods && 1 <= scale
    ensures 0 <= (m + QUIET_MODULES) * scale
    ensures (m + QUIET_MODULES) * scale + scale <= (mods + 2 * QUIET_MODULES) * scale
  {
  }

  /** Drawing one module's block moves the part-way image one module on. */
  lemma DrawnNext(grid: Grid, scale: int, mx: int, my: int, x: int, y: int)
    requires Square(grid) && 1 <= scale && 0 <= mx < |grid| && 0 <= my < |grid|
    ensures ShadeSoFar(grid, scale, x, y, mx + 1, my) ==
            if grid[my][mx] < 0x8000
               && InBlock(x, y, (mx + QUIET_MODULES) * scale, (my + QUIET_MODULES) * scale, scale, scale)
            then BLACK else ShadeSoFar(grid, scale, x, y, mx, my)
  {
    BlockIsQuotient(scale, x, mx + QUIET_MODULES);
    BlockIsQuotient(scale, y, my + QUIET_MODULES);
  }

  lemma ShowsSame(pix: seq<int>, dim: int, f: (int, int) -> int, g: (int, int) -> int)
    requires |pix| == dim * dim && Shows(pix, dim, f) && forall x, y :: f(x, y) == g(x, y)
    ensures Shows(pix, dim, g)
  {
  }

  method DrawModule(pix: array<int>, dim: int, grid: Grid, scale: int, mx: int, my: int)
    requires Square(grid) && 1 <= scale && 0 <= mx < |grid| && 0 <= my < |grid|
    requires dim == Total(grid) * scale && pix.Length == dim * dim
    requires Shows(pix[..], dim, (x, y) => ShadeSoFar(grid, scale, x, y, mx, my))
    modifies pix
    ensures Shows(pix[..], dim, (x, y) => ShadeSoFar(grid, scale, x, y, mx + 1, my))
  {
    ghost var before := (x, y) => ShadeSoFar(grid, scale, x, y, mx, my);
    ghost var after := (x, y) => ShadeSoFar(grid, scale, x, y, mx + 1, my);
    forall x, y ensures after(x, y) ==
      if grid[my][mx] < 0x8000
         && InBlock(x, y, (mx + QUIET_MODULES) * scale, (my + QUIET_MODULES) * scale, scale, scale)
      then BLACK else before(x, y)
    {
      DrawnNext(grid, scale, mx, my, x, y);
    }
    if 0x8000 <= grid[my][mx] {
      ShowsSame(pix[..], dim, before, after);
      return; // nothing to draw
    }
    var x0, y0 := (mx + QUIET_MODULES) * scale, (my + QUIET_MODULES) * scale;
    BlockFits(|grid|, scale, mx);
    BlockFits(|grid|, scale, my);
    FillBlock(pix, dim, x0, y0, scale, before);
    ShowsSame(pix[..], dim, (x, y) => if InBlock(x, y, x0, y0, scale, scale) then BLACK else before(x, y), after);
  }

  /** Draw the grid. Every pixel of the result, quiet zone included, has the
      colour of the module its coordinates fall in. */
  method Raster(grid: Grid, size: int) returns (pix: array<int>, dim: int)
    requires Square(grid)
    ensures dim == Dim(grid, size) && pix.Length == dim * dim
    ensures Shows(pix[..], dim, (x, y) => Shade(grid, Scale(grid, size), x, y))
  {
    var mods := |grid|;
    var total := mods + 2 * QUIET_MODULES;
    var scale := Quotient(size, total);
    if scale < 1 {
      scale := 1;
    }
    dim := total * scale;
    Monotone(1, scale, total);
    pix := White(dim);
    ShowsSame(pix[..], dim, (x, y) => WHITE, (x, y) => ShadeSoFar(grid, scale, x, y, 0, 0));
    for my := 0 to mods
      invariant Shows(pix[..], dim, (x, y) => ShadeSoFar(grid, scale, x, y, 0, my))
    {
      for mx := 0 to mods
        invariant Shows(pix[..], dim, (x, y) => ShadeSoFar(grid, scale, x, y, mx, my))
      {
        DrawModule(pix, dim, grid, scale, mx, my);
      }
      ShowsSame(pix[..], dim, (x, y) => ShadeSoFar(grid, scale, x, y, mods, my),
                (x, y) => ShadeSoFar(grid, scale, x, y, 0, my + 1));
    }
    ShowsSame(pix[..], dim, (x, y) => ShadeSoFar(grid, scale, x, y, 0, mods), (x, y) => Shade(grid, scale, x, y));
  }

  /** A white image. */
  method White(dim: int) returns (pix: array<int>)
    requires 0 <= dim
    ensures fresh(pix) && pix.Length == dim * dim && Shows(pix[..], dim, (x, y) => WHITE)
  {
    Monotone(0, dim, dim);
    pix := new int[dim * dim];
    for i := 0 to pix.Length
      invariant forall j :: 0 <= j < i ==> pix[j] == WHITE
    {
      pix[i] := WHITE;
    }
    forall x, y | 0 <= x < dim && 0 <= y < dim ensures 0 <= Index(dim, x, y) < dim * dim {
      IndexInBounds(dim, x, y);
    }
  }

  /** Sampling any pixel of a module's block recovers the module, and distinct
      modules have distinct blocks inside the image: the picture determines the grid. */
  lemma SampleRecoversGrid(grid: Grid, size: int, mx: int, my: int, dx: int, dy: int)
    requires Square(grid) && 0 <= mx < |grid| && 0 <= my < |grid|
    requires 0 <= dx < Scale(grid, size) && 0 <= dy < Scale(grid, size)
    ensures var scale := Scale(grid, size);
            var x, y := (mx + QUIET_MODULES) * scale + dx, (my + QUIET_MODULES) * scale + dy;
            && 0 <= x < Dim(grid, size) && 0 <= y < Dim(grid, size)
            && (Shade(grid, scale, x, y) == BLACK <==> grid[my][mx] < 0x8000)
  {
    var scale := Scale(grid, size);
    BlockFits(|grid|, scale, mx);
    BlockFits(|grid|, scale, my);
    BlockIsQuotient(scale, (mx + QUIET_MODULES) * scale + dx, mx + QUIET_MODULES);
    BlockIsQuotient(scale, (my + QUIET_MODULES) * scale + dy, my + QUIET_MODULES);
  }

  /** Every pixel within four modules of an edge is white. */
  lemma QuietZoneIsWhite(grid: Grid, size: int, x: int, y: int)
    requires Square(grid) && 0 <= x < Dim(grid, size) && 0 <= y < Dim(grid, size)
    requires var border := QUIET_MODULES * Scale(grid, size);
             x < border || y < border || Dim(grid, size) - border <= x || Dim(grid, size) - border <= y
    ensures Shade(grid, Scale(grid, size), x, y) == WHITE
  {
    OutsideGrid(|grid|, Scale(grid, size), x);
    OutsideGrid(|grid|, Scale(grid, size), y);
  }

  lemma OutsideGrid(mods: int, scale: int, x: int)
    requires 1 <= scale && 0 <= mods
    ensures x < QUIET_MODULES * scale ==> x / scale - QUIET_MODULES < 0
    ensures (mods + 2 * QUIET_MODULES) * scale - QUIET_MODULES * scale <= x ==> mods <= x / scale - QUIET_MODULES
  {
    var q := x / scale;
    BlockIsQuotient(scale, x, q);
    if QUIET_MODULES <= q {
      Monotone(QUIET_MODULES, q, scale);
    }
    if q < mods + QUIET_MODULES {
      NextMultiple(q, mods + QUIET_MODULES, scale);
      assert (mods + 2 * QUIET_MODULES) * scale - QUIET_MODULES * scale == (mods + QUIET_MODULES) * scale;
    }
  }

  /** Asked for at least one pixel per module, the image is the largest whole
      multiple of the module count that fits in `size`. */
  lemma ImageFitsRequest(grid: Grid, size: int)
    requires |grid| + 8 <= size
    ensures Dim(grid, size) <= size < Dim(grid, size) + |grid| + 8
    ensures Dim(grid, size) == (|grid| + 8) * Scale(grid, size)
  {
  }

  /** The modules and four of white on every side; asked for less than that, one pixel each. */
  lemma SmallestImage(grid: Grid, size: int)
    ensures Total(grid) == |grid| + 8
    ensures size < |grid| + 8 ==> Dim(grid, size) == |grid| + 8
  {
  }
}
