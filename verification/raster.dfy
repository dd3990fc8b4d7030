/** RGBA raster images: the colour keying that makes a colour transparent,
    the transparency test, and a canvas that images are pasted onto. */
module Raster {
  newtype byte = x: int | 0 <= x < 256

  datatype Pixel = Pixel(r: byte, g: byte, b: byte, a: byte)

  /** A colour given as an RGB or an RGBA tuple. */
  datatype Colour = Rgb(r: byte, g: byte, b: byte) | Rgba(r: byte, g: byte, b: byte, a: byte)

  const WHITE: Colour := Rgb(255, 255, 255)

  /** A tile is 256 pixels square. */
  const TILE_SIZE: nat := 256

  /** Pixel rows, top to bottom; `rows[y][x]` is the pixel at (x, y). */
  datatype Bitmap = Bitmap(width: nat, height: nat, rows: seq<seq<Pixel>>)

  predicate Rectangular(b: Bitmap)
  {
    |b.rows| == b.height && forall y :: 0 <= y < |b.rows| ==> |b.rows[y]| == b.width
  }

  type Image = b: Bitmap | Rectangular(b) witness Bitmap(0, 0, [])

  /** Two images of the same size with the same pixels are equal. */
  lemma SamePixels(p: Image, q: Image)
    requires p.width == q.width && p.height == q.height
    requires forall y, x :: 0 <= y < p.height && 0 <= x < p.width ==> p.rows[y][x] == q.rows[y][x]
    ensures p == q
  {
    forall y | 0 <= y < p.height
      ensures p.rows[y] == q.rows[y]
    {
      assert forall x :: 0 <= x < p.width ==> p.rows[y][x] == q.rows[y][x];
    }
  }

  /** `Image.new('RGBA', (width, height), fill)`. */
  function Blank(width: nat, height: nat, fill: Pixel): (r: Image)
    ensures r.width == width && r.height == height
    ensures forall y, x :: 0 <= y < height && 0 <= x < width ==> r.rows[y][x] == fill
  {
    Bitmap(width, height, seq(height, _ => seq(width, _ => fill)))
  }

  /** The transparent white every new tile starts as. */
  const CLEAR: Pixel := Pixel(255, 255, 255, 0)

  function BlankTile(): Image
  {
    Blank(TILE_SIZE, TILE_SIZE, CLEAR)
  }

  // ---------------------------------------------------------------------
  // Colour keying

  function RgbOf(p: Pixel): (byte, byte, byte)
  {
    (p.r, p.g, p.b)
  }

  function ColourRgb(c: Colour): (byte, byte, byte)
  {
    (c.r, c.g, c.b)
  }

  /** The white branch: opaque when any channel is not 255. */
  function WhiteKeyed(p: Pixel): Pixel
  {
    p.(a := if p.r != 255 || p.g != 255 || p.b != 255 then 255 else 0)
  }

  /** The general branch: opaque when any channel differs from the colour's. */
  function ColourKeyed(p: Pixel, c: Colour): Pixel
  {
    p.(a := if p.r != c.r || p.g != c.g || p.b != c.b then 255 else 0)
  }

  function MapPixels(img: Image, f: Pixel -> Pixel): (r: Image)
    ensures r.width == img.width && r.height == img.height
    ensures forall y, x :: 0 <= y < img.height && 0 <= x < img.width ==> r.rows[y][x] == f(img.rows[y][x])
  {
    Bitmap(img.width, img.height,
           seq(img.height, y requires 0 <= y < img.height =>
             seq(img.width, x requires 0 <= x < img.width => f(img.rows[y][x]))))
  }

  /** `make_transparent(img, colour)`: a copy of the image whose alpha is 0
      where the pixel's RGB is the colour's and 255 elsewhere; the colour
      channels are kept. */
  function MakeTransparent(img: Image, colour: Colour): (r: Image)
    ensures r.width == img.width && r.height == img.height
    ensures forall y, x :: 0 <= y < img.height && 0 <= x < img.width ==>
              RgbOf(r.rows[y][x]) == RgbOf(img.rows[y][x]) &&
              (r.rows[y][x].a == 0 <==> RgbOf(img.rows[y][x]) == ColourRgb(colour)) &&
              (r.rows[y][x].a == 255 <==> RgbOf(img.rows[y][x]) != ColourRgb(colour))
  {
    if colour == WHITE then MapPixels(img, WhiteKeyed)
    else MapPixels(img, p => ColourKeyed(p, colour))
  }

  /** The white branch and the general branch key a pixel alike whenever
      the colour's RGB is white, whatever its alpha. */
  lemma WhiteBranchAgrees(img: Image, colour: Colour)
    requires ColourRgb(colour) == ColourRgb(WHITE)
    ensures MakeTransparent(img, colour) == MapPixels(img, WhiteKeyed)
    ensures MakeTransparent(img, colour) == MapPixels(img, p => ColourKeyed(p, colour))
  {
    var w := MapPixels(img, WhiteKeyed);
    var g := MapPixels(img, p => ColourKeyed(p, colour));
    SamePixels(w, g);
  }

  /** Keying twice with the same colour changes nothing more. */
  lemma MakeTransparentIdempotent(img: Image, colour: Colour)
    ensures MakeTransparent(MakeTransparent(img, colour), colour) == MakeTransparent(img, colour)
  {
    var once := MakeTransparent(img, colour);
    SamePixels(MakeTransparent(once, colour), once);
  }

  // ---------------------------------------------------------------------
  // Transparency

  function AnyAlphaIn(row: seq<Pixel>): (r: bool)
    ensures r <==> exists x :: 0 <= x < |row| && row[x].a != 0
  {
    if row == [] then false
    else row[0].a != 0 || AnyAlphaIn(row[1..])
  }

  function AnyAlpha(rows: seq<seq<Pixel>>): (r: bool)
    ensures r <==> exists y, x :: 0 <= y < |rows| && 0 <= x < |rows[y]| && rows[y][x].a != 0
  {
    if rows == [] then false
    else
      AnyAlphaIn(rows[0]) || (
        var rest := AnyAlpha(rows[1..]);
        assert rest <==> exists y, x :: 1 <= y < |rows| && 0 <= x < |rows[y]| && rows[y][x].a != 0 by {
          assert forall y :: 1 <= y < |rows| ==> rows[y] == rows[1..][y - 1];
          if rest {
            var y, x :| 0 <= y < |rows[1..]| && 0 <= x < |rows[1..][y]| && rows[1..][y][x].a != 0;
            assert rows[y + 1][x].a != 0;
          }
        }
        rest)
  }

  /** `not_transparent(img)`: some pixel has a nonzero alpha. */
  function NotTransparent(img: Image): (r: bool)
    ensures r <==> exists y, x :: 0 <= y < img.height && 0 <= x < img.width && img.rows[y][x].a != 0
  {
    AnyAlpha(img.rows)
  }

  /** A blank tile is fully transparent, so it is never stored. */
  lemma BlankTileTransparent()
    ensures !NotTransparent(BlankTile())
  {}

  /** After keying, an image is visible exactly when some pixel's RGB
      differs from the keyed colour. */
  lemma KeyedVisible(img: Image, colour: Colour)
    ensures NotTransparent(MakeTransparent(img, colour)) <==>
            exists y, x :: 0 <= y < img.height && 0 <= x < img.width && RgbOf(img.rows[y][x]) != ColourRgb(colour)
  {
    var r := MakeTransparent(img, colour);
    if NotTransparent(r) {
      var y, x :| 0 <= y < r.height && 0 <= x < r.width && r.rows[y][x].a != 0;
      assert RgbOf(img.rows[y][x]) != ColourRgb(colour);
    }
    if exists y, x :: 0 <= y < img.height && 0 <= x < img.width && RgbOf(img.rows[y][x]) != ColourRgb(colour) {
      var y, x :| 0 <= y < img.height && 0 <= x < img.width && RgbOf(img.rows[y][x]) != ColourRgb(colour);
      assert r.rows[y][x].a == 255;
    }
  }

  // ---------------------------------------------------------------------
  // Pasting

  /** Whether (x, y) of the canvas is covered by an image pasted at
      (ox, oy). */
  predicate Covers(img: Image, ox: int, oy: int, x: int, y: int)
  {
    ox <= x < ox + img.width && oy <= y < oy + img.height
  }

  /** The canvas pixel at (x, y) after pasting `img` at (ox, oy): the
      image's pixel where it covers the point, the old pixel elsewhere. */
  function PastePixel(below: Pixel, img: Image, ox: int, oy: int, x: int, y: int): Pixel
  {
    if Covers(img, ox, oy, x, y) then img.rows[y - oy][x - ox] else below
  }

  /** `canvas.paste(img, (ox, oy))` without a mask: the image replaces the
      canvas pixels it covers, clipped to the canvas, alpha included. */
  function Pasted(canvas: Image, img: Image, ox: int, oy: int): (r: Image)
    ensures r.width == canvas.width && r.height == canvas.height
    ensures forall y, x :: 0 <= y < canvas.height && 0 <= x < canvas.width ==>
              r.rows[y][x] == (if Covers(img, ox, oy, x, y) then img.rows[y - oy][x - ox] else canvas.rows[y][x])
  {
    Bitmap(canvas.width, canvas.height,
           seq(canvas.height, y requires 0 <= y < canvas.height =>
             seq(canvas.width, x requires 0 <= x < canvas.width =>
               PastePixel(canvas.rows[y][x], img, ox, oy, x, y))))
  }

  /** Pasting keeps every canvas pixel outside the pasted rectangle. */
  lemma PasteKeepsOutside(canvas: Image, img: Image, ox: int, oy: int, x: int, y: int)
    requires 0 <= y < canvas.height && 0 <= x < canvas.width
    requires !Covers(img, ox, oy, x, y)
    ensures Pasted(canvas, img, ox, oy).rows[y][x] == canvas.rows[y][x]
  {}

  /** A PIL image being drawn on: a fixed-size pixel buffer, indexed
      [row, column]. */
  class Canvas {
    var pixels: array2<Pixel>

    function Contents(): (r: Image)
      reads this, pixels
      ensures r.width == pixels.Length1 && r.height == pixels.Length0
      ensures forall y, x :: 0 <= y < pixels.Length0 && 0 <= x < pixels.Length1 ==> r.rows[y][x] == pixels[y, x]
    {
      Bitmap(pixels.Length1, pixels.Length0,
             seq(pixels.Length0, y requires 0 <= y < pixels.Length0 reads this, pixels =>
               seq(pixels.Length1, x requires 0 <= y < pixels.Length0 && 0 <= x < pixels.Length1 reads this, pixels => pixels[y, x])))
    }

    /** `Image.new('RGBA', (width, height), fill)`. */
    constructor(width: nat, height: nat, fill: Pixel)
      ensures fresh(pixels)
      ensures Contents() == Blank(width, height, fill)
    {
      pixels := new Pixel[height, width]((_, _) => fill);
      new;
      SamePixels(Contents(), Blank(width, height, fill));
    }

    /** `paste(img, (ox, oy))`. */
    method Paste(img: Image, ox: int, oy: int)
      modifies pixels
      ensures Contents() == Pasted(old(Contents()), img, ox, oy)
    {
      var yLo := if oy < 0 then 0 else oy;
      var yHi := if oy + img.height < pixels.Length0 then oy + img.height else pixels.Length0;
      var xLo := if ox < 0 then 0 else ox;
      var xHi := if ox + img.width < pixels.Length1 then ox + img.width else pixels.Length1;
      var y := yLo;
      while y < yHi
        invariant yLo <= y && (yLo <= yHi ==> y <= yHi)
        invariant forall y', x' :: 0 <= y' < pixels.Length0 && 0 <= x' < pixels.Length1 ==>
                    pixels[y', x'] == if y' < y then PastePixel(old(pixels[y', x']), img, ox, oy, x', y') else old(pixels[y', x'])
      {
        var x := xLo;
        while x < xHi
          invariant xLo <= x && (xLo <= xHi ==> x <= xHi)
          invariant forall y', x' :: 0 <= y' < pixels.Length0 && 0 <= x' < pixels.Length1 ==>
                      pixels[y', x'] == if y' < y || (y' == y && x' < x) then PastePixel(old(pixels[y', x']), img, ox, oy, x', y') else old(pixels[y', x'])
        {
          pixels[y, x] := img.rows[y - oy][x - ox];
          x := x + 1;
        }
        y := y + 1;
      }
      SamePixels(Contents(), Pasted(old(Contents()), img, ox, oy));
    }
  }
}
