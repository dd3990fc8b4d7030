/** Cutting a rendered page into 256-pixel tiles: the affine map from tile
    pixels to page coordinates, the offset at which a short render is
    placed, and the padding of partial tiles. */
module PageTiling {
  import opened Wrappers
  import opened Raster

  /** The Python exceptions tiling can raise. */
  datatype Exception = AssertionError | ZeroDivisionError | IndexError | OverflowError

  /** A `fitz.Rect`: left, top, right, bottom. `Width` and `Height` are the
      signed differences `x1 - x0` and `y1 - y0`; fitz never reports a
      negative width or height, so the two agree only for rectangles that
      are not inverted, which are the only ones the tile maker builds. */
  datatype Rect = Rect(x0: real, y0: real, x1: real, y1: real)
  {
    function Width(): real { x1 - x0 }
    function Height(): real { y1 - y0 }
  }

  // ---------------------------------------------------------------------
  // Affine maps

  /** The two meaningful rows of the homogeneous matrix
      [[sx, 0, tx], [0, sy, ty], [0, 0, 1]]. */
  datatype Affine = Affine(sx: real, sy: real, tx: real, ty: real)

  /** `Affine(scale, A, B)`: scales by `scale` and moves A to B. */
  function MakeAffine(scale: (real, real), a: (real, real), b: (real, real)): Affine
  {
    Affine(scale.0, scale.1, -scale.0 * a.0 + b.0, -scale.1 * a.1 + b.1)
  }

  /** `transform(x, y)`: the matrix applied to (x, y, 1), first two
      coordinates. */
  function Transform(m: Affine, x: real, y: real): (real, real)
  {
    (m.sx * x + m.tx, m.sy * y + m.ty)
  }

  /** The affine map sends A to B ... */
  lemma AffineMapsAToB(scale: (real, real), a: (real, real), b: (real, real))
    ensures Transform(MakeAffine(scale, a, b), a.0, a.1) == b
  {
    var m := MakeAffine(scale, a, b);
    assert Transform(m, a.0, a.1).0 == b.0;
    assert Transform(m, a.0, a.1).1 == b.1;
  }

  /** ... and scales differences along each axis by that axis's factor. */
  lemma AffineScalesDifferences(scale: (real, real), a: (real, real), b: (real, real), p: (real, real), q: (real, real))
    ensures Transform(MakeAffine(scale, a, b), p.0, p.1).0 - Transform(MakeAffine(scale, a, b), q.0, q.1).0 == scale.0 * (p.0 - q.0)
    ensures Transform(MakeAffine(scale, a, b), p.0, p.1).1 - Transform(MakeAffine(scale, a, b), q.0, q.1).1 == scale.1 * (p.1 - q.1)
  {
    assert scale.0 * p.0 - scale.0 * q.0 == scale.0 * (p.0 - q.0);
    assert scale.1 * p.1 - scale.1 * q.1 == scale.1 * (p.1 - q.1);
  }

  // ---------------------------------------------------------------------
  // Placement of short renders

  /** `check_image_size`: where along one axis a render of `dimension`
      pixels goes in a tile of `maxDim` pixels. A render longer than the
      tile fails the assertion. A short render whose clip starts before
      the page starts and ends before the page ends goes at the far end;
      one clipped at both ends goes at the start of the page, rounded to
      the nearest pixel; everything else at 0. */
  function CheckImageSize(dimension: nat, maxDim: nat, lower: real, upper: real, bounds: (real, real), scale: real): (r: Result<int, Exception>)
    ensures r.Failure? <==> dimension > maxDim
    ensures r.Failure? ==> r.error == AssertionError
    ensures dimension == maxDim || (dimension < maxDim && lower >= bounds.0) ==> r == Success(0)
    ensures dimension < maxDim && lower < bounds.0 && upper < bounds.1 ==> r == Success(maxDim - dimension)
    ensures dimension < maxDim && lower < bounds.0 && upper >= bounds.1 ==>
              r.Success? && r.value as real - 0.5 <= -lower * scale < r.value as real + 0.5
  {
    if dimension < maxDim then
      if lower < bounds.0 then
        if upper < bounds.1 then Success(maxDim - dimension)
        else Success((0.5 - lower * scale).Floor)
      else Success(0)
    else if dimension == maxDim then Success(0)
    else Failure(AssertionError)
  }

  /** The float64 quotient `(TILE_SIZE - 1)/(upper - lower)` that numpy
      computes for one axis of a tile's clip. For a clip of zero extent the
      difference is +0.0 and numpy gives +inf with a RuntimeWarning instead
      of raising. */
  datatype Scale = Finite(value: real) | PositiveInfinity

  function ClipScale(lower: real, upper: real): (s: Scale)
    ensures s.PositiveInfinity? <==> upper == lower
    ensures s.Finite? ==> s.value * (upper - lower) == (TILE_SIZE - 1) as real
  {
    if upper - lower == 0.0 then PositiveInfinity else Finite((TILE_SIZE - 1) as real / (upper - lower))
  }

  /** `check_image_size` given a float64 scale. A finite scale behaves as
      `CheckImageSize`. An infinite one is read only in the branch for a
      short render clipped at both ends, where `math.floor(0.5 - lower*inf)`
      is `math.floor(inf)` and raises OverflowError; every other branch
      ignores the scale. */
  function CheckImageSizeAt(dimension: nat, maxDim: nat, lower: real, upper: real, bounds: (real, real), scale: Scale): (r: Result<int, Exception>)
    ensures scale.Finite? ==> r == CheckImageSize(dimension, maxDim, lower, upper, bounds, scale.value)
    ensures scale.PositiveInfinity? ==>
              (r == Failure(OverflowError) <==> dimension < maxDim && lower < bounds.0 && upper >= bounds.1)
  {
    match scale
    case Finite(s) => CheckImageSize(dimension, maxDim, lower, upper, bounds, s)
    case PositiveInfinity =>
      if dimension < maxDim && lower < bounds.0 && upper >= bounds.1 then Failure(OverflowError)
      else CheckImageSize(dimension, maxDim, lower, upper, bounds, 0.0)
  }

  /** Outside the branch that reads it, an infinite scale gives what every
      finite scale gives. */
  lemma InfiniteScaleUnread(dimension: nat, maxDim: nat, lower: real, upper: real, bounds: (real, real), s: real)
    requires !(dimension < maxDim && lower < bounds.0 && upper >= bounds.1)
    ensures CheckImageSizeAt(dimension, maxDim, lower, upper, bounds, PositiveInfinity)
            == CheckImageSize(dimension, maxDim, lower, upper, bounds, s)
  {}

  /** A clip of zero extent on a page whose far edge is not negative never
      reaches the branch that reads the scale: it is placed as with any
      finite scale, and fails only when the render is too long. */
  lemma ZeroExtentClipPlaced(dimension: nat, maxDim: nat, at: real, far: real, s: real)
    requires far >= 0.0
    ensures CheckImageSizeAt(dimension, maxDim, at, at, (0.0, far), ClipScale(at, at))
            == CheckImageSize(dimension, maxDim, at, at, (0.0, far), s)
    ensures CheckImageSizeAt(dimension, maxDim, at, at, (0.0, far), ClipScale(at, at)).Failure? <==> dimension > maxDim
  {
    InfiniteScaleUnread(dimension, maxDim, at, at, (0.0, far), s);
  }

  /** A short render placed at the far end of the tile ends exactly at the
      tile's edge. */
  lemma ShortRenderEndsAtEdge(dimension: nat, maxDim: nat, lower: real, upper: real, bounds: (real, real), scale: real)
    requires dimension < maxDim && lower < bounds.0 && upper < bounds.1
    ensures CheckImageSize(dimension, maxDim, lower, upper, bounds, scale).Success?
    ensures CheckImageSize(dimension, maxDim, lower, upper, bounds, scale).value + dimension == maxDim
  {}

  /** When the clip starts left of a page starting at 0 and the scale is
      positive, the render is never placed before the tile's start. */
  lemma ClippedOffsetNonNegative(dimension: nat, maxDim: nat, lower: real, upper: real, right: real, scale: real)
    requires dimension < maxDim && lower < 0.0 && scale > 0.0
    ensures CheckImageSize(dimension, maxDim, lower, upper, (0.0, right), scale).Success?
    ensures CheckImageSize(dimension, maxDim, lower, upper, (0.0, right), scale).value >= 0
  {
    assert -lower * scale > 0.0 by {
      assert -lower > 0.0;
    }
  }

  // ---------------------------------------------------------------------
  // Page tiler

  /** The map from tile pixel coordinates to page coordinates: the image
      rectangle's top-left corner goes to the page origin, scaled by the
      ratio of page size to image size. */
  function TileToImage(pageRect: Rect, imageRect: Rect): Affine
    requires imageRect.Width() != 0.0 && imageRect.Height() != 0.0
  {
    MakeAffine((pageRect.Width() / imageRect.Width(), pageRect.Height() / imageRect.Height()),
               (imageRect.x0, imageRect.y0), (0.0, 0.0))
  }

  /** The tiler's map sends the image rectangle onto the page: its
      top-left corner to the origin and its bottom-right corner to
      (page width, page height). */
  lemma TilerSpansPage(pageRect: Rect, imageRect: Rect)
    requires imageRect.Width() != 0.0 && imageRect.Height() != 0.0
    ensures Transform(TileToImage(pageRect, imageRect), imageRect.x0, imageRect.y0) == (0.0, 0.0)
    ensures Transform(TileToImage(pageRect, imageRect), imageRect.x1, imageRect.y1) == (pageRect.Width(), pageRect.Height())
  {
    var sx := pageRect.Width() / imageRect.Width();
    var sy := pageRect.Height() / imageRect.Height();
    var m := TileToImage(pageRect, imageRect);
    AffineMapsAToB((sx, sy), (imageRect.x0, imageRect.y0), (0.0, 0.0));
    AffineScalesDifferences((sx, sy), (imageRect.x0, imageRect.y0), (0.0, 0.0), (imageRect.x1, imageRect.y1), (imageRect.x0, imageRect.y0));
    assert sx * imageRect.Width() == pageRect.Width();
    assert sy * imageRect.Height() == pageRect.Height();
    assert Transform(m, imageRect.x1, imageRect.y1).0 == pageRect.Width();
    assert Transform(m, imageRect.x1, imageRect.y1).1 == pageRect.Height();
  }

  /** The page region of tile (tx, ty), whose tile pixel corners are
      256·(tx, ty) and 256·(tx + 1, ty + 1). */
  function Clip(m: Affine, tx: int, ty: int): Rect
  {
    var p0 := Transform(m, (TILE_SIZE * tx) as real, (TILE_SIZE * ty) as real);
    var p1 := Transform(m, (TILE_SIZE * (tx + 1)) as real, (TILE_SIZE * (ty + 1)) as real);
    Rect(p0.0, p0.1, p1.0, p1.1)
  }

  /** The x offset of a short render in tile (tx, ty). */
  function XStart(pageRect: Rect, m: Affine, tx: int, ty: int, render: Image): Result<int, Exception>
  {
    var clip := Clip(m, tx, ty);
    CheckImageSizeAt(render.width, TILE_SIZE, clip.x0, clip.x1, (0.0, pageRect.x1), ClipScale(clip.x0, clip.x1))
  }

  /** The y offset of a short render in tile (tx, ty). */
  function YStart(pageRect: Rect, m: Affine, tx: int, ty: int, render: Image): Result<int, Exception>
  {
    var clip := Clip(m, tx, ty);
    CheckImageSizeAt(render.height, TILE_SIZE, clip.y0, clip.y1, (0.0, pageRect.y1), ClipScale(clip.y0, clip.y1))
  }

  /** The tile `tile_as_png(tx, ty)` returns, given the render of its
      clip: a full-size render is keyed as it is; a short one is pasted
      at the offsets `check_image_size` gives onto a transparent white
      tile, which is then keyed. A clip of zero width or height gets an
      infinite scale and is not an error in itself. */
  function TilePng(pageRect: Rect, m: Affine, tx: int, ty: int, render: Image): Result<Image, Exception>
  {
    var xStart :- XStart(pageRect, m, tx, ty, render);
    var yStart :- YStart(pageRect, m, tx, ty, render);
    if render.width == TILE_SIZE && render.height == TILE_SIZE then Success(MakeTransparent(render, WHITE))
    else Success(MakeTransparent(Pasted(BlankTile(), render, xStart, yStart), WHITE))
  }

  /** On a page whose right and bottom edges are not negative, such as
      every `pdf_page.rect`, tiling fails exactly when the render is larger
      than a tile, whatever the clip's extent. */
  lemma TileFailsOnlyWhenOversize(pageRect: Rect, m: Affine, tx: int, ty: int, render: Image)
    requires pageRect.x1 >= 0.0 && pageRect.y1 >= 0.0
    ensures TilePng(pageRect, m, tx, ty, render).Failure? <==> render.width > TILE_SIZE || render.height > TILE_SIZE
    ensures TilePng(pageRect, m, tx, ty, render).Failure? ==> TilePng(pageRect, m, tx, ty, render).error == AssertionError
  {
    var clip := Clip(m, tx, ty);
    if clip.x0 == clip.x1 {
      ZeroExtentClipPlaced(render.width, TILE_SIZE, clip.x0, pageRect.x1, 0.0);
    }
    if clip.y0 == clip.y1 {
      ZeroExtentClipPlaced(render.height, TILE_SIZE, clip.y0, pageRect.y1, 0.0);
    }
  }

  /** Every tile `tile_as_png` returns is exactly 256 × 256. */
  lemma TileIsTileSize(pageRect: Rect, m: Affine, tx: int, ty: int, render: Image)
    requires TilePng(pageRect, m, tx, ty, render).Success?
    ensures TilePng(pageRect, m, tx, ty, render).value.width == TILE_SIZE
    ensures TilePng(pageRect, m, tx, ty, render).value.height == TILE_SIZE
  {}

  /** A full-size render is only keyed. */
  lemma FullRenderKeyed(pageRect: Rect, m: Affine, tx: int, ty: int, render: Image)
    requires render.width == TILE_SIZE && render.height == TILE_SIZE
    ensures TilePng(pageRect, m, tx, ty, render) == Success(MakeTransparent(render, WHITE))
  {}

  /** A render larger than a tile fails the size assertion. */
  lemma OversizeRenderFails(pageRect: Rect, m: Affine, tx: int, ty: int, render: Image)
    requires render.width > TILE_SIZE
    ensures TilePng(pageRect, m, tx, ty, render) == Failure(AssertionError)
  {}

  /** In a padded tile every pixel the render does not cover is fully
      transparent, and every pixel it covers keeps the render's colour and
      is opaque exactly when that colour is not white. */
  lemma PaddedTile(pageRect: Rect, m: Affine, tx: int, ty: int, render: Image, x: int, y: int)
    requires TilePng(pageRect, m, tx, ty, render).Success?
    requires render.width != TILE_SIZE || render.height != TILE_SIZE
    requires 0 <= x < TILE_SIZE && 0 <= y < TILE_SIZE
    ensures var xs := XStart(pageRect, m, tx, ty, render).value;
            var ys := YStart(pageRect, m, tx, ty, render).value;
            var p := TilePng(pageRect, m, tx, ty, render).value.rows[y][x];
            (!Covers(render, xs, ys, x, y) ==> p.a == 0) &&
            (Covers(render, xs, ys, x, y) ==>
               RgbOf(p) == RgbOf(render.rows[y - ys][x - xs]) &&
               (p.a == 0 <==> RgbOf(render.rows[y - ys][x - xs]) == ColourRgb(WHITE)))
  {
    var xs := XStart(pageRect, m, tx, ty, render).value;
    var ys := YStart(pageRect, m, tx, ty, render).value;
    var pasted := Pasted(BlankTile(), render, xs, ys);
    assert TilePng(pageRect, m, tx, ty, render).value == MakeTransparent(pasted, WHITE);
  }

  class PageTiler {
    const pageRect: Rect
    const imageRect: Rect
    /** From tile pixel coordinates to page coordinates. */
    const tileToImage: Affine

    predicate Valid()
    {
      imageRect.Width() != 0.0 && imageRect.Height() != 0.0 &&
      tileToImage == TileToImage(pageRect, imageRect)
    }

    constructor(pageRect: Rect, imageRect: Rect)
      requires imageRect.Width() != 0.0 && imageRect.Height() != 0.0
      ensures this.pageRect == pageRect && this.imageRect == imageRect
      ensures Valid()
    {
      this.pageRect := pageRect;
      this.imageRect := imageRect;
      tileToImage := MakeAffine((pageRect.Width() / imageRect.Width(), pageRect.Height() / imageRect.Height()),
                                (imageRect.x0, imageRect.y0), (0.0, 0.0));
    }

    /** `PageTiler(pdf_page, image_rect)`: an image rectangle of zero width
        or height is a division by zero. */
    static method Create(pageRect: Rect, imageRect: Rect) returns (r: Result<PageTiler, Exception>)
      ensures r.Failure? <==> imageRect.Width() == 0.0 || imageRect.Height() == 0.0
      ensures r.Failure? ==> r.error == ZeroDivisionError
      ensures r.Success? ==> fresh(r.value) && r.value.pageRect == pageRect && r.value.imageRect == imageRect && r.value.Valid()
    {
      if imageRect.Width() == 0.0 || imageRect.Height() == 0.0 {
        return Failure(ZeroDivisionError);
      }
      var tiler := new PageTiler(pageRect, imageRect);
      return Success(tiler);
    }

    /** `tile_as_png(tx, ty)`, with the renderer's output for the tile's
        clip given as `render`. */
    method TileAsPng(tx: int, ty: int, render: Image) returns (r: Result<Image, Exception>)
      ensures r == TilePng(pageRect, tileToImage, tx, ty, render)
    {
      var x0y0 := Transform(tileToImage, (TILE_SIZE * tx) as real, (TILE_SIZE * ty) as real);
      var x1y1 := Transform(tileToImage, (TILE_SIZE * (tx + 1)) as real, (TILE_SIZE * (ty + 1)) as real);
      var scaling := (ClipScale(x0y0.0, x1y1.0), ClipScale(x0y0.1, x1y1.1));
      var xStart := CheckImageSizeAt(render.width, TILE_SIZE, x0y0.0, x1y1.0, (0.0, pageRect.x1), scaling.0);
      if xStart.Failure? {
        return Failure(xStart.error);
      }
      var yStart := CheckImageSizeAt(render.height, TILE_SIZE, x0y0.1, x1y1.1, (0.0, pageRect.y1), scaling.1);
      if yStart.Failure? {
        return Failure(yStart.error);
      }
      if render.width == TILE_SIZE && render.height == TILE_SIZE {
        return Success(MakeTransparent(render, WHITE));
      }
      var tile := new Canvas(TILE_SIZE, TILE_SIZE, CLEAR);
      tile.Paste(render, xStart.value, yStart.value);
      return Success(MakeTransparent(tile.Contents(), WHITE));
    }
  }
}
