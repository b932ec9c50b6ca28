/**
 * The tile schedule of generate_image (src/main.cpp): the image is cut into
 * 100 x 100 rectangles, clipped at the right edge (x = width) and at the top
 * edge (y = height, since image row 0 is the bottom of the view), and queued
 * column by column (x outer, y inner).
 */
module Tiles {

  /** rect_width and rect_height. */
  const TILE: int := 100

  /** A glm::ivec4 rectangle: x0 = .x, y0 = .y, x1 = .z, y1 = .w (half-open). */
  datatype Rect = Rect(x0: int, y0: int, x1: int, y1: int)

  predicate Contains(r: Rect, x: int, y: int) {
    r.x0 <= x < r.x1 && r.y0 <= y < r.y1
  }

  function Min(a: int, b: int): int { if a < b then a else b }

  /** How often `for (float k = 0; k < extent / 100.f; ++k)` runs: ceil(extent / 100), none for extent <= 0. */
  function TileCount(extent: int): nat {
    if extent <= 0 then 0 else (extent + TILE - 1) / TILE
  }

  /** The loop test: k runs below TileCount(extent) exactly while k * 100 < extent. */
  lemma TileCountTest(extent: int, k: nat)
    ensures k < TileCount(extent) <==> k * TILE < extent
  {
    if extent > 0 {
      var n := TileCount(extent);
      assert TILE * n <= extent + TILE - 1 < TILE * n + TILE;
    }
  }

  /** The rectangle of tile column x, row y, clipped to the width x height image. */
  function TileAt(width: int, height: int, x: nat, y: nat): Rect {
    Rect(x * TILE, y * TILE, Min(width, x * TILE + TILE), Min(height, y * TILE + TILE))
  }

  /** The first n tiles of column x, from the bottom row (y = 0) upwards. */
  function ColumnTiles(width: int, height: int, x: nat, n: nat): (r: seq<Rect>)
    ensures |r| == n
  {
    if n == 0 then [] else ColumnTiles(width, height, x, n - 1) + [TileAt(width, height, x, n - 1)]
  }

  /** The first n full columns, in order. */
  function Columns(width: int, height: int, n: nat): seq<Rect> {
    if n == 0 then [] else Columns(width, height, n - 1) + ColumnTiles(width, height, n - 1, TileCount(height))
  }

  /** Every rectangle generate_image enqueues, in queue order. */
  function TileQueue(width: int, height: int): seq<Rect> {
    Columns(width, height, TileCount(width))
  }

  /** A tile lies inside the image, is non-empty and spans at most 100 pixels on each axis. */
  predicate WellPlaced(width: int, height: int, r: Rect) {
    && 0 <= r.x0 < r.x1 <= width
    && 0 <= r.y0 < r.y1 <= height
    && r.x1 - r.x0 <= TILE
    && r.y1 - r.y0 <= TILE
  }

  /** The number of rectangles of `rs` containing pixel (x, y). */
  function Coverage(rs: seq<Rect>, x: int, y: int): nat
    decreases |rs|
  {
    if rs == [] then 0
    else Coverage(rs[..|rs| - 1], x, y) + (if Contains(rs[|rs| - 1], x, y) then 1 else 0)
  }

  // ----------------------------------------------------------------- laws

  lemma TileWellPlaced(width: int, height: int, x: nat, y: nat)
    requires x < TileCount(width) && y < TileCount(height)
    ensures WellPlaced(width, height, TileAt(width, height, x, y))
  {
    TileCountTest(width, x);
    TileCountTest(height, y);
  }

  /** Every enqueued tile is well placed. */
  lemma {:induction false} TilesWellPlaced(width: int, height: int, n: nat)
    requires n <= TileCount(width)
    ensures forall r :: r in Columns(width, height, n) ==> WellPlaced(width, height, r)
  {
    if n > 0 {
      TilesWellPlaced(width, height, n - 1);
      ColumnWellPlaced(width, height, n - 1, TileCount(height));
    }
  }

  lemma {:induction false} ColumnWellPlaced(width: int, height: int, x: nat, n: nat)
    requires x < TileCount(width) && n <= TileCount(height)
    ensures forall r :: r in ColumnTiles(width, height, x, n) ==> WellPlaced(width, height, r)
  {
    if n > 0 {
      ColumnWellPlaced(width, height, x, n - 1);
      TileWellPlaced(width, height, x, n - 1);
    }
  }

  /** ceil(width/100) * ceil(height/100) tiles are enqueued. */
  lemma {:induction false} ColumnsLength(width: int, height: int, n: nat)
    ensures |Columns(width, height, n)| == n * TileCount(height)
  {
    if n > 0 {
      ColumnsLength(width, height, n - 1);
      assert n * TileCount(height) == (n - 1) * TileCount(height) + TileCount(height);
    }
  }

  /** x-major order: tile (x, y) sits at queue position x * rows + y. */
  lemma {:induction false} TileOrder(width: int, height: int, n: nat, x: nat, y: nat)
    requires x < n && y < TileCount(height)
    ensures |Columns(width, height, n)| == n * TileCount(height)
    ensures x * TileCount(height) + y < n * TileCount(height)
    ensures Columns(width, height, n)[x * TileCount(height) + y] == TileAt(width, height, x, y)
  {
    var rows := TileCount(height);
    ColumnsLength(width, height, n);
    ColumnsLength(width, height, n - 1);
    if x < n - 1 {
      TileOrder(width, height, n - 1, x, y);
    } else {
      ColumnTileAt(width, height, x, rows, y);
    }
    assert x * rows + rows <= n * rows;
  }

  lemma {:induction false} ColumnTileAt(width: int, height: int, x: nat, n: nat, y: nat)
    requires y < n
    ensures ColumnTiles(width, height, x, n)[y] == TileAt(width, height, x, y)
  {
    if y < n - 1 {
      ColumnTileAt(width, height, x, n - 1, y);
    }
  }

  /** Pixel (px, py) is in tile (x, y) exactly when it is in the image and x, y are its coordinates divided by 100. */
  lemma TileContains(width: int, height: int, x: nat, y: nat, px: int, py: int)
    ensures Contains(TileAt(width, height, x, y), px, py) <==>
              0 <= px < width && 0 <= py < height && px / TILE == x && py / TILE == y
  {
    if 0 <= px {
      DivTile(px, x);
    }
    if 0 <= py {
      DivTile(py, y);
    }
  }

  lemma DivTile(p: nat, k: nat)
    ensures k * TILE <= p < k * TILE + TILE <==> p / TILE == k
  {
  }

  lemma {:induction false} CoverageAppend(a: seq<Rect>, b: seq<Rect>, x: int, y: int)
    ensures Coverage(a + b, x, y) == Coverage(a, x, y) + Coverage(b, x, y)
    decreases |b|
  {
    if b == [] {
      assert a + b == a;
    } else {
      var b' := b[..|b| - 1];
      assert (a + b)[..|a + b| - 1] == a + b';
      assert (a + b)[|a + b| - 1] == b[|b| - 1];
      CoverageAppend(a, b', x, y);
    }
  }

  /** Within the first n tiles of column x, pixel (px, py) is covered once when its tile is among them. */
  lemma {:induction false} ColumnCoverage(width: int, height: int, x: nat, n: nat, px: int, py: int)
    ensures Coverage(ColumnTiles(width, height, x, n), px, py) ==
              if 0 <= px < width && 0 <= py < height && px / TILE == x && py / TILE < n then 1 else 0
  {
    if n > 0 {
      var c := ColumnTiles(width, height, x, n);
      assert c[..n - 1] == ColumnTiles(width, height, x, n - 1);
      ColumnCoverage(width, height, x, n - 1, px, py);
      TileContains(width, height, x, n - 1, px, py);
    }
  }

  lemma {:induction false} ColumnsCoverage(width: int, height: int, n: nat, px: int, py: int)
    ensures Coverage(Columns(width, height, n), px, py) ==
              if 0 <= px < width && 0 <= py < height && px / TILE < n then 1 else 0
  {
    if n > 0 {
      ColumnsCoverage(width, height, n - 1, px, py);
      CoverageAppend(Columns(width, height, n - 1), ColumnTiles(width, height, n - 1, TileCount(height)), px, py);
      ColumnCoverage(width, height, n - 1, TileCount(height), px, py);
      if 0 <= py < height {
        TileCountTest(height, py / TILE);
        assert py / TILE * TILE <= py;
      }
    }
  }

  /** The tiles cover every pixel of the image exactly once, and nothing outside it. */
  lemma TilesCoverImage(width: int, height: int, px: int, py: int)
    ensures Coverage(TileQueue(width, height), px, py) == if 0 <= px < width && 0 <= py < height then 1 else 0
  {
    ColumnsCoverage(width, height, TileCount(width), px, py);
    if 0 <= px < width {
      TileCountTest(width, px / TILE);
      assert px / TILE * TILE <= px;
    }
  }

  /** Two positions of a sequence whose rectangles share a pixel make its coverage at least two. */
  lemma {:induction false} SharedPixelCoverage(rs: seq<Rect>, i: nat, j: nat, x: int, y: int)
    requires i < j < |rs|
    requires Contains(rs[i], x, y) && Contains(rs[j], x, y)
    ensures Coverage(rs, x, y) >= 2
    decreases |rs|
  {
    var prefix := rs[..|rs| - 1];
    if j < |rs| - 1 {
      SharedPixelCoverage(prefix, i, j, x, y);
    } else {
      CoveredOnce(prefix, i, x, y);
    }
  }

  lemma {:induction false} CoveredOnce(rs: seq<Rect>, i: nat, x: int, y: int)
    requires i < |rs| && Contains(rs[i], x, y)
    ensures Coverage(rs, x, y) >= 1
    decreases |rs|
  {
    if i < |rs| - 1 {
      CoveredOnce(rs[..|rs| - 1], i, x, y);
    }
  }

  /** Distinct queue entries never share a pixel. */
  lemma TilesDisjoint(width: int, height: int, i: nat, j: nat, x: int, y: int)
    requires i < j < |TileQueue(width, height)|
    ensures !(Contains(TileQueue(width, height)[i], x, y) && Contains(TileQueue(width, height)[j], x, y))
  {
    if Contains(TileQueue(width, height)[i], x, y) && Contains(TileQueue(width, height)[j], x, y) {
      SharedPixelCoverage(TileQueue(width, height), i, j, x, y);
      TilesCoverImage(width, height, x, y);
    }
  }
}
