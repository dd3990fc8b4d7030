/** The tile pyramid: the tiles of the full-resolution level are cut from
    the page, and every lower zoom level is built from the level above by
    shrinking each block of four tiles into one. */
module Pyramid {
  import opened Wrappers
  import opened Raster
  import opened PageTiling

  const MAX_ZOOM: int := 10

  /** Half a tile: the size of a shrunk child in an overview tile. */
  const HALF: nat := 128

  datatype TileKey = TileKey(zoom: int, x: int, y: int)

  /** The contents of a tile database. */
  type Tiles = map<TileKey, Bitmap>

  /** An MBTiles database held in memory; a tile it does not hold is a
      miss. */
  class TileStore {
    var tiles: Tiles

    constructor()
      ensures tiles == map[]
    {
      tiles := map[];
    }

    /** `save_tile(zoom, x, y, image)`. */
    method SaveTile(zoom: int, x: int, y: int, img: Image)
      modifies this
      ensures tiles == old(tiles)[TileKey(zoom, x, y) := img]
    {
      tiles := tiles[TileKey(zoom, x, y) := img];
    }

    /** `get_tile(zoom, x, y)`; `None` stands for the ExtractionError of
        a miss. */
    method GetTile(zoom: int, x: int, y: int) returns (r: Option<Bitmap>)
      ensures r.Some? <==> TileKey(zoom, x, y) in tiles
      ensures r.Some? ==> r.value == tiles[TileKey(zoom, x, y)]
    {
      var key := TileKey(zoom, x, y);
      if key in tiles {
        return Some(tiles[key]);
      }
      return None;
    }
  }

  /** A stored tile: at least one of its pixels is not fully
      transparent (for an image, the same as `NotTransparent`). */
  predicate Visible(b: Bitmap)
  {
    AnyAlpha(b.rows)
  }

  // ---------------------------------------------------------------------
  // Base level

  /** The tile `tile_as_png` cuts at each offset from the first covering
      tile, given the renderer's output `render` for each offset. */
  function Cutter(pageRect: Rect, tileToImage: Affine, render: (int, int) -> Image): (int, int) -> Result<Image, Exception>
  {
    (dx: int, dy: int) => TilePng(pageRect, tileToImage, dx, dy, render(dx, dy))
  }

  /** The tiles of the base level after cutting the covering tiles `ts`
      in order, and the exception that stopped the cutting, if any. Each
      tile is cut by `cut` at its offset from the first covering tile
      `start`, and stored under its own index only when it is not fully
      transparent. */
  function BaseLevel(m: Tiles, cut: (int, int) -> Result<Image, Exception>,
                     zoom: int, start: (int, int), ts: seq<(int, int)>): (Tiles, Option<Exception>)
    decreases ts
  {
    if ts == [] then (m, None)
    else
      match cut(ts[0].0 - start.0, ts[0].1 - start.1)
      case Failure(e) => (m, Some(e))
      case Success(png) =>
        var m' := if NotTransparent(png) then m[TileKey(zoom, ts[0].0, ts[0].1) := png] else m;
        BaseLevel(m', cut, zoom, start, ts[1..])
  }

  /** Cutting the base level keeps what the store held before, except for
      tiles it overwrites; every tile it stores is at the base zoom, is
      one of the covering tiles, holds what the tiler cut at that tile's
      offset from the first covering tile, and is not fully transparent. */
  lemma {:induction false} BaseLevelStoresVisible(m: Tiles, cut: (int, int) -> Result<Image, Exception>,
                                                  zoom: int, start: (int, int), ts: seq<(int, int)>, k: TileKey)
    requires k in BaseLevel(m, cut, zoom, start, ts).0
    ensures var stored := BaseLevel(m, cut, zoom, start, ts).0;
            (k in m && stored[k] == m[k]) ||
            (k.zoom == zoom && (k.x, k.y) in ts && Visible(stored[k]) &&
             cut(k.x - start.0, k.y - start.1).Success? && cut(k.x - start.0, k.y - start.1).value == stored[k])
    decreases ts
  {
    if ts != [] {
      match cut(ts[0].0 - start.0, ts[0].1 - start.1)
      case Failure(e) =>
      case Success(png) =>
        var m' := if NotTransparent(png) then m[TileKey(zoom, ts[0].0, ts[0].1) := png] else m;
        BaseLevelStoresVisible(m', cut, zoom, start, ts[1..], k);
        assert forall t :: t in ts[1..] ==> t in ts;
    }
  }

  /** A base level with no exception stores every covering tile that is
      not fully transparent, holding what the tiler cut at that tile's
      offset from the first covering tile. */
  lemma {:induction false} BaseLevelStoresAll(m: Tiles, cut: (int, int) -> Result<Image, Exception>,
                                              zoom: int, start: (int, int), ts: seq<(int, int)>, i: nat)
    requires BaseLevel(m, cut, zoom, start, ts).1.None?
    requires i < |ts|
    ensures var png := cut(ts[i].0 - start.0, ts[i].1 - start.1);
            png.Success? &&
            (NotTransparent(png.value) ==>
               TileKey(zoom, ts[i].0, ts[i].1) in BaseLevel(m, cut, zoom, start, ts).0 &&
               BaseLevel(m, cut, zoom, start, ts).0[TileKey(zoom, ts[i].0, ts[i].1)] == png.value)
    decreases ts
  {
    var png := cut(ts[0].0 - start.0, ts[0].1 - start.1);
    assert png.Success?;
    var m' := if NotTransparent(png.value) then m[TileKey(zoom, ts[0].0, ts[0].1) := png.value] else m;
    assert BaseLevel(m, cut, zoom, start, ts) == BaseLevel(m', cut, zoom, start, ts[1..]);
    if i == 0 {
      if NotTransparent(png.value) {
        BaseLevelKeepsCut(m', cut, zoom, start, ts[1..], TileKey(zoom, ts[0].0, ts[0].1));
      }
    } else {
      BaseLevelStoresAll(m', cut, zoom, start, ts[1..], i - 1);
    }
  }

  /** A tile holding what the tiler cuts at its own offset keeps it: a
      later covering tile with the same index is cut at the same offset. */
  lemma {:induction false} BaseLevelKeepsCut(m: Tiles, cut: (int, int) -> Result<Image, Exception>,
                                             zoom: int, start: (int, int), ts: seq<(int, int)>, k: TileKey)
    requires k.zoom == zoom && k in m
    requires cut(k.x - start.0, k.y - start.1).Success? && m[k] == cut(k.x - start.0, k.y - start.1).value
    ensures k in BaseLevel(m, cut, zoom, start, ts).0
    ensures BaseLevel(m, cut, zoom, start, ts).0[k] == m[k]
    decreases ts
  {
    if ts != [] {
      match cut(ts[0].0 - start.0, ts[0].1 - start.1)
      case Failure(e) =>
      case Success(png) =>
        var m' := if NotTransparent(png) then m[TileKey(zoom, ts[0].0, ts[0].1) := png] else m;
        assert k in m' && m'[k] == m[k];
        BaseLevelKeepsCut(m', cut, zoom, start, ts[1..], k);
    }
  }

  /** Cutting never removes a tile from the store. */
  lemma {:induction false} BaseLevelKeeps(m: Tiles, cut: (int, int) -> Result<Image, Exception>,
                                          zoom: int, start: (int, int), ts: seq<(int, int)>)
    ensures m.Keys <= BaseLevel(m, cut, zoom, start, ts).0.Keys
    decreases ts
  {
    if ts != [] {
      match cut(ts[0].0 - start.0, ts[0].1 - start.1)
      case Failure(e) =>
      case Success(png) =>
        var m' := if NotTransparent(png) then m[TileKey(zoom, ts[0].0, ts[0].1) := png] else m;
        BaseLevelKeeps(m', cut, zoom, start, ts[1..]);
    }
  }

  // ---------------------------------------------------------------------
  // Overview tiles

  /** The child (i, j) of overview tile (x, y) at `zoom`: tile
      (2x + i, 2y + j) one level up. */
  function ChildKey(zoom: int, x: int, y: int, i: int, j: int): (k: TileKey)
    ensures k.zoom == zoom + 1
    ensures 0 <= i < 2 && 0 <= j < 2 ==> k.x / 2 == x && k.y / 2 == y
  {
    TileKey(zoom + 1, 2 * x + i, 2 * y + j)
  }

  /** The canvas after child (i, j), if the store holds it, is shrunk by
      `halve` and pasted at quadrant offset (i·128, j·128). */
  function WithChild(canvas: Image, m: Tiles, halve: Bitmap -> Image, zoom: int, x: int, y: int, i: int, j: int): Image
  {
    var key := ChildKey(zoom, x, y, i, j);
    if key in m then Pasted(canvas, halve(m[key]), i * HALF, j * HALF) else canvas
  }

  /** The overview tile after its first n children, taken in the order
      (0, 0), (0, 1), (1, 0), (1, 1). */
  function Quadrants(m: Tiles, halve: Bitmap -> Image, zoom: int, x: int, y: int, n: nat): (r: Image)
    requires n <= 4
    ensures r.width == TILE_SIZE && r.height == TILE_SIZE
  {
    if n == 0 then BlankTile()
    else WithChild(Quadrants(m, halve, zoom, x, y, n - 1), m, halve, zoom, x, y, (n - 1) / 2, (n - 1) % 2)
  }

  /** The number of children an overview tile is made from. */
  function ChildCount(): nat { 4 }

  /** Overview tile (x, y) at `zoom`, made from its children one level up. */
  function OverviewImage(m: Tiles, halve: Bitmap -> Image, zoom: int, x: int, y: int): Image
  {
    Quadrants(m, halve, zoom, x, y, ChildCount())
  }

  /** Two stores agree on key k. */
  predicate SameAt(m: Tiles, m': Tiles, k: TileKey)
  {
    (k in m <==> k in m') && (k in m ==> m[k] == m'[k])
  }

  /** Two stores agree on the four children of (x, y). */
  predicate SameChildren(m: Tiles, m': Tiles, zoom: int, x: int, y: int)
  {
    forall i, j :: 0 <= i < 2 && 0 <= j < 2 ==> SameAt(m, m', ChildKey(zoom, x, y, i, j))
  }

  lemma {:induction false} QuadrantsReadChildren(m: Tiles, m': Tiles, halve: Bitmap -> Image, zoom: int, x: int, y: int, n: nat)
    requires n <= 4
    requires SameChildren(m, m', zoom, x, y)
    ensures Quadrants(m, halve, zoom, x, y, n) == Quadrants(m', halve, zoom, x, y, n)
  {
    if n > 0 {
      QuadrantsReadChildren(m, m', halve, zoom, x, y, n - 1);
      assert SameAt(m, m', ChildKey(zoom, x, y, (n - 1) / 2, (n - 1) % 2));
    }
  }

  /** An overview tile reads nothing but its four children: stores that
      agree on them give the same overview tile. */
  lemma OverviewReadsChildren(m: Tiles, m': Tiles, halve: Bitmap -> Image, zoom: int, x: int, y: int)
    requires SameChildren(m, m', zoom, x, y)
    ensures OverviewImage(m, halve, zoom, x, y) == OverviewImage(m', halve, zoom, x, y)
  {
    QuadrantsReadChildren(m, m', halve, zoom, x, y, ChildCount());
  }

  lemma {:induction false} NoChildrenQuadrants(m: Tiles, halve: Bitmap -> Image, zoom: int, x: int, y: int, n: nat)
    requires n <= 4
    requires forall i, j :: 0 <= i < 2 && 0 <= j < 2 ==> ChildKey(zoom, x, y, i, j) !in m
    ensures Quadrants(m, halve, zoom, x, y, n) == BlankTile()
  {
    if n > 0 {
      NoChildrenQuadrants(m, halve, zoom, x, y, n - 1);
      assert ChildKey(zoom, x, y, (n - 1) / 2, (n - 1) % 2) !in m;
    }
  }

  /** With all four children missing the overview tile stays blank, so it
      is fully transparent and is not stored. */
  lemma NoChildrenBlank(m: Tiles, halve: Bitmap -> Image, zoom: int, x: int, y: int)
    requires forall i, j :: 0 <= i < 2 && 0 <= j < 2 ==> ChildKey(zoom, x, y, i, j) !in m
    ensures OverviewImage(m, halve, zoom, x, y) == BlankTile()
    ensures !NotTransparent(OverviewImage(m, halve, zoom, x, y))
  {
    NoChildrenQuadrants(m, halve, zoom, x, y, ChildCount());
    BlankTileTransparent();
  }

  /** Every child the store holds shrinks to exactly a quarter tile. */
  predicate HalvesFit(m: Tiles, halve: Bitmap -> Image, zoom: int, x: int, y: int)
  {
    forall i, j :: 0 <= i < 2 && 0 <= j < 2 && ChildKey(zoom, x, y, i, j) in m ==>
      halve(m[ChildKey(zoom, x, y, i, j)]).width == HALF && halve(m[ChildKey(zoom, x, y, i, j)]).height == HALF
  }

  /** Adding child (i', j') changes only its own quadrant. */
  lemma WithChildPixel(canvas: Image, m: Tiles, halve: Bitmap -> Image, zoom: int, x: int, y: int,
                       i': int, j': int, i: int, j: int, px: int, py: int)
    requires canvas.width == TILE_SIZE && canvas.height == TILE_SIZE
    requires HalvesFit(m, halve, zoom, x, y)
    requires 0 <= i' < 2 && 0 <= j' < 2
    requires 0 <= i < 2 && 0 <= j < 2 && 0 <= px < HALF && 0 <= py < HALF
    ensures var key := ChildKey(zoom, x, y, i', j');
            WithChild(canvas, m, halve, zoom, x, y, i', j').rows[j * HALF + py][i * HALF + px]
              == if (i', j') == (i, j) && key in m then halve(m[key]).rows[py][px]
                 else canvas.rows[j * HALF + py][i * HALF + px]
  {
    var key := ChildKey(zoom, x, y, i', j');
    if key in m && (i', j') != (i, j) {
      assert !Covers(halve(m[key]), i' * HALF, j' * HALF, i * HALF + px, j * HALF + py);
    }
  }

  lemma {:induction false} QuadrantPixel(m: Tiles, halve: Bitmap -> Image, zoom: int, x: int, y: int, n: nat,
                                         i: int, j: int, px: int, py: int)
    requires n <= 4
    requires HalvesFit(m, halve, zoom, x, y)
    requires 0 <= i < 2 && 0 <= j < 2 && 0 <= px < HALF && 0 <= py < HALF
    ensures var key := ChildKey(zoom, x, y, i, j);
            Quadrants(m, halve, zoom, x, y, n).rows[j * HALF + py][i * HALF + px]
              == if 2 * i + j < n && key in m then halve(m[key]).rows[py][px] else CLEAR
  {
    if n > 0 {
      QuadrantPixel(m, halve, zoom, x, y, n - 1, i, j, px, py);
      WithChildPixel(Quadrants(m, halve, zoom, x, y, n - 1), m, halve, zoom, x, y,
                     (n - 1) / 2, (n - 1) % 2, i, j, px, py);
      ChildOrder(n - 1, i, j);
    }
  }

  /** The children are taken in the order (0, 0), (0, 1), (1, 0), (1, 1):
      child (i, j) is number 2i + j. */
  lemma ChildOrder(c: int, i: int, j: int)
    requires 0 <= c < 4 && 0 <= i < 2 && 0 <= j < 2
    ensures (c / 2 == i && c % 2 == j) <==> 2 * i + j == c
  {
    if c == 0 {
    } else if c == 1 {
    } else if c == 2 {
    } else {
    }
  }

  /** Child (i, j) appears shrunk in quadrant (i, j) of the overview tile,
      at offset (i·128, j·128); a missing child leaves its quadrant
      transparent white. */
  lemma OverviewQuadrant(m: Tiles, halve: Bitmap -> Image, zoom: int, x: int, y: int, i: int, j: int, px: int, py: int)
    requires HalvesFit(m, halve, zoom, x, y)
    requires 0 <= i < 2 && 0 <= j < 2 && 0 <= px < HALF && 0 <= py < HALF
    ensures var key := ChildKey(zoom, x, y, i, j);
            OverviewImage(m, halve, zoom, x, y).rows[j * HALF + py][i * HALF + px]
              == if key in m then halve(m[key]).rows[py][px] else CLEAR
  {
    QuadrantPixel(m, halve, zoom, x, y, ChildCount(), i, j, px, py);
  }

  // ---------------------------------------------------------------------
  // Overview levels

  /** The overview tile of each index at `zoom`, over the store m. */
  function Overview(m: Tiles, halve: Bitmap -> Image, zoom: int): (int, int) -> Image
  {
    (x: int, y: int) => OverviewImage(m, halve, zoom, x, y)
  }

  /** The store `base` after the overview tiles `ov` of column x, rows
      y0..y1, are made in that order and each one that is not fully
      transparent is stored. */
  function ColumnOnto(base: Tiles, ov: (int, int) -> Image, zoom: int, x: int, y0: int, y1: int): Tiles
    decreases y1 - y0
  {
    if y1 < y0 then base
    else
      var m := ColumnOnto(base, ov, zoom, x, y0, y1 - 1);
      var img := ov(x, y1);
      if NotTransparent(img) then m[TileKey(zoom, x, y1) := img] else m
  }

  /** The same for columns x0..x1, one column after another. */
  function ColumnsOnto(base: Tiles, ov: (int, int) -> Image, zoom: int, x0: int, x1: int, y0: int, y1: int): Tiles
    decreases x1 - x0
  {
    if x1 < x0 then base
    else ColumnOnto(ColumnsOnto(base, ov, zoom, x0, x1 - 1, y0, y1), ov, zoom, x1, y0, y1)
  }

  /** The store m after a whole level at `zoom` over the index ranges
      [lo, hi], each tile made from m's tiles one level up. */
  function Level(m: Tiles, halve: Bitmap -> Image, zoom: int, lo: (int, int), hi: (int, int)): Tiles
  {
    ColumnsOnto(m, Overview(m, halve, zoom), zoom, lo.0, hi.0, lo.1, hi.1)
  }

  /** Whether k is a tile of the ranges whose overview is not fully
      transparent. */
  predicate VisibleIn(ov: (int, int) -> Image, zoom: int, x0: int, x1: int, y0: int, y1: int, k: TileKey)
  {
    k.zoom == zoom && x0 <= k.x <= x1 && y0 <= k.y <= y1 && NotTransparent(ov(k.x, k.y))
  }

  lemma {:induction false} ColumnOntoMeans(base: Tiles, ov: (int, int) -> Image, zoom: int, x: int, y0: int, y1: int, k: TileKey)
    ensures var m := ColumnOnto(base, ov, zoom, x, y0, y1);
            (k in m <==> k in base || VisibleIn(ov, zoom, x, x, y0, y1, k)) &&
            (k in m ==> m[k] == if VisibleIn(ov, zoom, x, x, y0, y1, k) then ov(k.x, k.y) else base[k])
    decreases y1 - y0
  {
    if y1 >= y0 {
      ColumnOntoMeans(base, ov, zoom, x, y0, y1 - 1, k);
    }
  }

  lemma {:induction false} ColumnsOntoMeans(base: Tiles, ov: (int, int) -> Image, zoom: int, x0: int, x1: int, y0: int, y1: int, k: TileKey)
    ensures var m := ColumnsOnto(base, ov, zoom, x0, x1, y0, y1);
            (k in m <==> k in base || VisibleIn(ov, zoom, x0, x1, y0, y1, k)) &&
            (k in m ==> m[k] == if VisibleIn(ov, zoom, x0, x1, y0, y1, k) then ov(k.x, k.y) else base[k])
    decreases x1 - x0
  {
    if x1 >= x0 {
      ColumnsOntoMeans(base, ov, zoom, x0, x1 - 1, y0, y1, k);
      ColumnOntoMeans(ColumnsOnto(base, ov, zoom, x0, x1 - 1, y0, y1), ov, zoom, x1, y0, y1, k);
    }
  }

  /** A level adds exactly the tiles of its ranges whose overview is not
      fully transparent, each being the overview of its own children, and
      keeps every other tile the store held. */
  lemma LevelMeans(m: Tiles, halve: Bitmap -> Image, zoom: int, lo: (int, int), hi: (int, int), k: TileKey)
    ensures var added := k.zoom == zoom && lo.0 <= k.x <= hi.0 && lo.1 <= k.y <= hi.1 &&
                         NotTransparent(OverviewImage(m, halve, zoom, k.x, k.y));
            (k in Level(m, halve, zoom, lo, hi) <==> k in m || added) &&
            (added ==> Level(m, halve, zoom, lo, hi)[k] == OverviewImage(m, halve, zoom, k.x, k.y)) &&
            (!added ==> SameAt(Level(m, halve, zoom, lo, hi), m, k))
  {
    ColumnsOntoMeans(m, Overview(m, halve, zoom), zoom, lo.0, hi.0, lo.1, hi.1, k);
  }

  /** Partway through a level, the children of every tile of that level
      are still as they were in the store the level started from. */
  lemma PartKeepsChildren(m: Tiles, ov: (int, int) -> Image, zoom: int, x0: int, x1: int, y0: int, y1: int, x: int, y: int, cx: int, cy: int)
    ensures SameChildren(ColumnOnto(ColumnsOnto(m, ov, zoom, x0, x1, y0, y1), ov, zoom, x, y0, y), m, zoom, cx, cy)
  {
    var part := ColumnsOnto(m, ov, zoom, x0, x1, y0, y1);
    forall i, j | 0 <= i < 2 && 0 <= j < 2
      ensures SameAt(ColumnOnto(part, ov, zoom, x, y0, y), m, ChildKey(zoom, cx, cy, i, j))
    {
      var k := ChildKey(zoom, cx, cy, i, j);
      ColumnsOntoMeans(m, ov, zoom, x0, x1, y0, y1, k);
      ColumnOntoMeans(part, ov, zoom, x, y0, y, k);
    }
  }

  /** Every index of a zoom level's range has its parent in the halved
      range of the level below. */
  lemma HalvedRangeHoldsParents(lo: (int, int), hi: (int, int), x: int, y: int)
    requires lo.0 <= x <= hi.0 && lo.1 <= y <= hi.1
    ensures lo.0 / 2 <= x / 2 <= hi.0 / 2 && lo.1 / 2 <= y / 2 <= hi.1 / 2
  {
    HalfMonotone(lo.0, x);
    HalfMonotone(x, hi.0);
    HalfMonotone(lo.1, y);
    HalfMonotone(y, hi.1);
  }

  lemma HalfMonotone(a: int, b: int)
    requires a <= b
    ensures a / 2 <= b / 2
  {}

  /** The store after `make_overview_tiles(zoom, start, end)`: while the
      zoom is positive, the level one below is built over the halved
      index ranges and added, then the next level down. */
  function Overviews(m: Tiles, halve: Bitmap -> Image, zoom: int, start: (int, int), end: (int, int)): Tiles
    decreases zoom
  {
    if zoom <= 0 then m
    else
      var lo := (start.0 / 2, start.1 / 2);
      var hi := (end.0 / 2, end.1 / 2);
      Overviews(Level(m, halve, zoom - 1, lo, hi), halve, zoom - 1, lo, hi)
  }

  /** The overview levels leave the levels at `zoom` and above, and any
      below 0, as they were. */
  lemma {:induction false} OverviewsKeepOthers(m: Tiles, halve: Bitmap -> Image, zoom: int, start: (int, int), end: (int, int), k: TileKey)
    requires k.zoom >= zoom || k.zoom < 0
    ensures SameAt(Overviews(m, halve, zoom, start, end), m, k)
    decreases zoom
  {
    if zoom > 0 {
      var lo := (start.0 / 2, start.1 / 2);
      var hi := (end.0 / 2, end.1 / 2);
      ColumnsOntoMeans(m, Overview(m, halve, zoom - 1), zoom - 1, lo.0, hi.0, lo.1, hi.1, k);
      OverviewsKeepOthers(Level(m, halve, zoom - 1, lo, hi), halve, zoom - 1, lo, hi, k);
    }
  }

  /** Every tile the overview levels add or replace is at a level from
      zoom − 1 down to 0 and is not fully transparent. */
  lemma {:induction false} OverviewsAddBelow(m: Tiles, halve: Bitmap -> Image, zoom: int, start: (int, int), end: (int, int), k: TileKey)
    requires k in Overviews(m, halve, zoom, start, end)
    requires !(k in m && Overviews(m, halve, zoom, start, end)[k] == m[k])
    ensures 0 <= k.zoom < zoom && Visible(Overviews(m, halve, zoom, start, end)[k])
    decreases zoom
  {
    if zoom > 0 {
      var lo := (start.0 / 2, start.1 / 2);
      var hi := (end.0 / 2, end.1 / 2);
      var level := Level(m, halve, zoom - 1, lo, hi);
      var r := Overviews(level, halve, zoom - 1, lo, hi);
      assert Overviews(m, halve, zoom, start, end) == r;
      var ov := Overview(m, halve, zoom - 1);
      ColumnsOntoMeans(m, ov, zoom - 1, lo.0, hi.0, lo.1, hi.1, k);
      if k in level && level[k] == r[k] {
        assert VisibleIn(ov, zoom - 1, lo.0, hi.0, lo.1, hi.1, k);
      } else {
        OverviewsAddBelow(level, halve, zoom - 1, lo, hi, k);
      }
    }
  }

  // ---------------------------------------------------------------------
  // Tile maker

  /** The outcome of `make_tiles`: the store's tiles and whether it
      raised. An image rectangle of zero width or height fails when the
      page tiler is made; otherwise the base level is cut and, when that
      raised nothing, the overview levels are built below it. */
  function Tiled(m: Tiles, pageRect: Rect, imageRect: Rect, render: (int, int) -> Image, halve: Bitmap -> Image,
                 maxZoom: int, ts: seq<(int, int)>, start: (int, int), end: (int, int)): (Tiles, Result<(), Exception>)
  {
    if imageRect.Width() == 0.0 || imageRect.Height() == 0.0 then (m, Failure(ZeroDivisionError))
    else
      var base := BaseLevel(m, Cutter(pageRect, TileToImage(pageRect, imageRect), render), maxZoom, start, ts);
      if base.1.Some? then (base.0, Failure(base.1.value))
      else (Overviews(base.0, halve, maxZoom, start, end), Success(()))
  }

  class TileMaker {
    const maxZoom: int
    /** The tiles at `maxZoom` that cover the image, in the order the
        tiling library lists them. */
    const tiles: seq<(int, int)>
    /** Where the image lies, in tile pixel coordinates. */
    const imageRect: Rect
    const tileStartCoords: (int, int)
    const tileEndCoords: (int, int)

    predicate Valid()
    {
      tiles != [] && tileStartCoords == tiles[0] && tileEndCoords == tiles[|tiles| - 1]
    }

    constructor(tiles: seq<(int, int)>, imageRect: Rect, maxZoom: int)
      requires tiles != []
      ensures this.tiles == tiles && this.imageRect == imageRect && this.maxZoom == maxZoom
      ensures Valid()
    {
      this.tiles := tiles;
      this.imageRect := imageRect;
      this.maxZoom := maxZoom;
      tileStartCoords := tiles[0];
      tileEndCoords := tiles[|tiles| - 1];
    }

    /** `TileMaker(extent, map_dir, max_zoom)` given the covering tiles and
        the image rectangle: the first and last covering tiles bound the
        index ranges; an empty covering is an IndexError. */
    static method Create(tiles: seq<(int, int)>, imageRect: Rect, maxZoom: int) returns (r: Result<TileMaker, Exception>)
      ensures r.Failure? <==> tiles == []
      ensures r.Failure? ==> r.error == IndexError
      ensures r.Success? ==> fresh(r.value) && r.value.tiles == tiles && r.value.maxZoom == maxZoom && r.value.Valid()
    {
      if tiles == [] {
        return Failure(IndexError);
      }
      var maker := new TileMaker(tiles, imageRect, maxZoom);
      return Success(maker);
    }

    /** `make_tiles(pdf_page, layer)` into `store`, with the page's
        rectangle, the renderer's output for each tile offset and the
        image library's shrinking to half size given as parameters. */
    method MakeTiles(pageRect: Rect, render: (int, int) -> Image, halve: Bitmap -> Image, store: TileStore)
      returns (r: Result<(), Exception>)
      requires Valid()
      modifies store
      ensures (store.tiles, r) == Tiled(old(store.tiles), pageRect, imageRect, render, halve, maxZoom, tiles, tileStartCoords, tileEndCoords)
    {
      var created := PageTiler.Create(pageRect, imageRect);
      if created.Failure? {
        return Failure(created.error);
      }
      var tiler := created.value;
      var zoom := maxZoom;
      ghost var m0 := store.tiles;
      ghost var cut := Cutter(pageRect, TileToImage(pageRect, imageRect), render);
      assert tiles[0..] == tiles;
      for i := 0 to |tiles|
        invariant BaseLevel(m0, cut, zoom, tileStartCoords, tiles)
               == BaseLevel(store.tiles, cut, zoom, tileStartCoords, tiles[i..])
      {
        assert tiles[i..][0] == tiles[i] && tiles[i..][1..] == tiles[i + 1..];
        var tile := tiles[i];
        var png := tiler.TileAsPng(tile.0 - tileStartCoords.0, tile.1 - tileStartCoords.1,
                                   render(tile.0 - tileStartCoords.0, tile.1 - tileStartCoords.1));
        assert png == cut(tile.0 - tileStartCoords.0, tile.1 - tileStartCoords.1);
        if png.Failure? {
          return Failure(png.error);
        }
        if NotTransparent(png.value) {
          store.SaveTile(zoom, tile.0, tile.1, png.value);
        }
      }
      MakeOverviewTiles(store, halve, zoom, tileStartCoords, tileEndCoords);
      return Success(());
    }

    /** The inner loops of `make_overview_tiles` for tile (x, y) at
        `zoom`: a blank tile with each child the store holds shrunk and
        pasted into its quadrant. */
    method OverviewTile(store: TileStore, halve: Bitmap -> Image, zoom: int, x: int, y: int) returns (tile: Image)
      ensures tile == OverviewImage(store.tiles, halve, zoom, x, y)
    {
      var canvas := new Canvas(TILE_SIZE, TILE_SIZE, CLEAR);
      ghost var n := 0;
      for i := 0 to 2
        invariant fresh(canvas.pixels)
        invariant n == 2 * i
        invariant canvas.Contents() == Quadrants(store.tiles, halve, zoom, x, y, n)
      {
        for j := 0 to 2
          invariant fresh(canvas.pixels)
          invariant n == 2 * i + j
          invariant canvas.Contents() == Quadrants(store.tiles, halve, zoom, x, y, n)
        {
          AddChild(canvas, store, halve, zoom, x, y, i, j);
          n := n + 1;
        }
      }
      tile := canvas.Contents();
    }

    /** One pass of the innermost loop: child (i, j), if the store holds
        it, shrunk and pasted at (i·128, j·128), which takes the canvas
        from the first 2i + j children to the first 2i + j + 1. */
    method AddChild(canvas: Canvas, store: TileStore, halve: Bitmap -> Image, zoom: int, x: int, y: int, i: int, j: int)
      requires 0 <= i < 2 && 0 <= j < 2
      requires canvas.Contents() == Quadrants(store.tiles, halve, zoom, x, y, 2 * i + j)
      modifies canvas.pixels
      ensures canvas.Contents() == WithChild(old(canvas.Contents()), store.tiles, halve, zoom, x, y, i, j)
      ensures canvas.Contents() == Quadrants(store.tiles, halve, zoom, x, y, 2 * i + j + 1)
    {
      ghost var key := ChildKey(zoom, x, y, i, j);
      ChildOrder(2 * i + j, i, j);
      var child := store.GetTile(zoom + 1, 2 * x + i, 2 * y + j);
      if child.Some? {
        canvas.Paste(halve(child.value), i * HALF, j * HALF);
        assert key in store.tiles && child.value == store.tiles[key];
      } else {
        assert key !in store.tiles;
      }
    }

    /** `make_overview_tiles(zoom, start, end)`. */
    method MakeOverviewTiles(store: TileStore, halve: Bitmap -> Image, zoom: int, start: (int, int), end: (int, int))
      modifies store
      ensures store.tiles == Overviews(old(store.tiles), halve, zoom, start, end)
      decreases zoom
    {
      if zoom > 0 {
        var z := zoom - 1;
        var lo := (start.0 / 2, start.1 / 2);
        var hi := (end.0 / 2, end.1 / 2);
        MakeLevel(store, halve, z, lo, hi);
        MakeOverviewTiles(store, halve, z, lo, hi);
      }
    }

    /** The two outer loops of `make_overview_tiles`: every tile of the
        index ranges [lo, hi] at `zoom`, column by column, stored when not
        fully transparent. */
    method MakeLevel(store: TileStore, halve: Bitmap -> Image, zoom: int, lo: (int, int), hi: (int, int))
      modifies store
      ensures store.tiles == Level(old(store.tiles), halve, zoom, lo, hi)
    {
      ghost var m0 := store.tiles;
      var x := lo.0;
      while x <= hi.0
        invariant lo.0 <= x && (x <= hi.0 + 1 || x == lo.0)
        invariant store.tiles == ColumnsOnto(m0, Overview(m0, halve, zoom), zoom, lo.0, x - 1, lo.1, hi.1)
      {
        MakeColumn(store, halve, zoom, lo, hi, x, m0);
        x := x + 1;
      }
      if lo.0 > hi.0 {
        assert x - 1 < lo.0;
      }
    }

    /** The second loop for column x: every row of the range in order. */
    method MakeColumn(store: TileStore, halve: Bitmap -> Image, zoom: int, lo: (int, int), hi: (int, int), x: int, ghost m0: Tiles)
      requires lo.0 <= x
      requires store.tiles == ColumnsOnto(m0, Overview(m0, halve, zoom), zoom, lo.0, x - 1, lo.1, hi.1)
      modifies store
      ensures store.tiles == ColumnsOnto(m0, Overview(m0, halve, zoom), zoom, lo.0, x, lo.1, hi.1)
    {
      ghost var base := store.tiles;
      var y := lo.1;
      while y <= hi.1
        invariant lo.1 <= y && (y <= hi.1 + 1 || y == lo.1)
        invariant store.tiles == ColumnOnto(base, Overview(m0, halve, zoom), zoom, x, lo.1, y - 1)
      {
        MakeLevelTile(store, halve, zoom, lo, hi, x, y, m0, base);
        y := y + 1;
      }
      if lo.1 > hi.1 {
        assert y - 1 < lo.1;
      }
    }

    /** One pass of the second loop: tile (x, y) at `zoom`, made from the
        store m0 the level started from; `base` is the store when the
        column started. */
    method MakeLevelTile(store: TileStore, halve: Bitmap -> Image, zoom: int, lo: (int, int), hi: (int, int), x: int, y: int,
                         ghost m0: Tiles, ghost base: Tiles)
      requires lo.1 <= y
      requires base == ColumnsOnto(m0, Overview(m0, halve, zoom), zoom, lo.0, x - 1, lo.1, hi.1)
      requires store.tiles == ColumnOnto(base, Overview(m0, halve, zoom), zoom, x, lo.1, y - 1)
      modifies store
      ensures store.tiles == ColumnOnto(base, Overview(m0, halve, zoom), zoom, x, lo.1, y)
    {
      PartKeepsChildren(m0, Overview(m0, halve, zoom), zoom, lo.0, x - 1, lo.1, hi.1, x, y - 1, x, y);
      OverviewReadsChildren(store.tiles, m0, halve, zoom, x, y);
      var tile := OverviewTile(store, halve, zoom, x, y);
      assert tile == Overview(m0, halve, zoom)(x, y);
      if NotTransparent(tile) {
        store.SaveTile(zoom, x, y, tile);
      }
    }
  }
}
