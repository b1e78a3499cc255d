/**
 * Pixel rasters as values: the RGBA images the icon pipeline works on,
 * and the geometry of Pillow's `new`, `paste`, `crop` and `getbbox`
 * stated on them.
 */
module Raster {
  import opened Options

  /** One 8-bit colour channel. */
  type Channel = c: int | 0 <= c < 256

  /** An RGBA pixel, as every image is converted to RGBA on load. */
  datatype Pixel = Pixel(r: Channel, g: Channel, b: Channel, a: Channel)

  /** A well-formed raster, as every decoded or stored image is. */
  type Picture = r: Raster | r.Valid() witness Raster(0, 0, [])

  /** The fill colour `(0, 0, 0, 0)` of every canvas the pipeline creates. */
  const Clear := Pixel(0, 0, 0, 0)

  /** `getbbox` on an RGBA image trims pixels whose alpha is zero. */
  predicate IsContent(p: Pixel) { p.a != 0 }

  /** A rectangle `(left, upper, right, lower)`; right and lower are exclusive. */
  datatype Box = Box(left: int, top: int, right: int, bottom: int)

  /** `rows[y][x]` is the pixel in column x of row y. */
  datatype Raster = Raster(width: nat, height: nat, rows: seq<seq<Pixel>>)
  {
    predicate Valid() {
      |rows| == height && forall y | 0 <= y < height :: |rows[y]| == width
    }

    /** The box lies inside the raster and is not inverted. */
    predicate Holds(b: Box) {
      0 <= b.left <= b.right <= width && 0 <= b.top <= b.bottom <= height
    }
  }

  /** `Image.new('RGBA', (w, h), (0, 0, 0, 0))`. */
  function Blank(w: nat, h: nat): (r: Raster)
    ensures r.Valid() && r.width == w && r.height == h
    ensures forall y, x | 0 <= y < h && 0 <= x < w :: r.rows[y][x] == Clear
  {
    Raster(w, h, seq(h, _ => seq(w, _ => Clear)))
  }

  /** Whether pixel (x, y) of a canvas lies under `src` pasted at (ox, oy). */
  predicate Covers(src: Raster, ox: int, oy: int, x: int, y: int) {
    ox <= x < ox + src.width && oy <= y < oy + src.height
  }

  /**
   * `canvas.paste(src, (ox, oy))` without a mask: every canvas pixel under the
   * source takes the source pixel; the part of the source that falls outside
   * the canvas is clipped away.
   */
  function Pasted(canvas: Raster, src: Raster, ox: int, oy: int): (r: Raster)
    requires canvas.Valid() && src.Valid()
    ensures r.Valid() && r.width == canvas.width && r.height == canvas.height
  {
    Raster(canvas.width, canvas.height,
      seq(canvas.height, y requires 0 <= y < canvas.height =>
        seq(canvas.width, x requires 0 <= x < canvas.width =>
          if Covers(src, ox, oy, x, y) then src.rows[y - oy][x - ox] else canvas.rows[y][x])))
  }

  /** `r.crop(b)` for a box inside the raster. */
  function Window(r: Raster, b: Box): (w: Raster)
    requires r.Valid() && r.Holds(b)
    ensures w.Valid() && w.width == b.right - b.left && w.height == b.bottom - b.top
  {
    Raster(b.right - b.left, b.bottom - b.top,
      seq(b.bottom - b.top, i requires 0 <= i < b.bottom - b.top => r.rows[b.top + i][b.left..b.right]))
  }

  /** The whole source lands on the canvas: nothing is clipped. */
  predicate FitsAt(canvas: Raster, src: Raster, ox: int, oy: int) {
    0 <= ox && ox + src.width <= canvas.width && 0 <= oy && oy + src.height <= canvas.height
  }

  /** The rectangle a source occupies once pasted at (ox, oy). */
  function Footprint(src: Raster, ox: int, oy: int): Box {
    Box(ox, oy, ox + src.width, oy + src.height)
  }

  /**
   * A paste with no mask: when the source fits, the window at the offset
   * equals the source pixel for pixel, and every other pixel keeps its value.
   */
  lemma PasteKeepsSource(canvas: Raster, src: Raster, ox: int, oy: int)
    requires canvas.Valid() && src.Valid() && FitsAt(canvas, src, ox, oy)
    ensures Pasted(canvas, src, ox, oy).Holds(Footprint(src, ox, oy))
    ensures Window(Pasted(canvas, src, ox, oy), Footprint(src, ox, oy)) == src
    ensures forall y, x | 0 <= y < canvas.height && 0 <= x < canvas.width && !Covers(src, ox, oy, x, y) ::
      Pasted(canvas, src, ox, oy).rows[y][x] == canvas.rows[y][x]
  {
    var r := Pasted(canvas, src, ox, oy);
    var w := Window(r, Footprint(src, ox, oy));
    forall i | 0 <= i < src.height ensures w.rows[i] == src.rows[i] {
      assert |w.rows[i]| == |src.rows[i]|;
      forall j | 0 <= j < src.width ensures w.rows[i][j] == src.rows[i][j] {
        assert w.rows[i][j] == r.rows[oy + i][ox + j];
        assert Covers(src, ox, oy, ox + j, oy + i);
      }
    }
  }

  /** A pasted source on a blank canvas: outside its footprint everything is transparent. */
  lemma PasteOnBlank(size: nat, src: Raster, ox: int, oy: int)
    requires src.Valid() && FitsAt(Blank(size, size), src, ox, oy)
    ensures var r := Pasted(Blank(size, size), src, ox, oy);
      && r.width == size && r.height == size
      && Window(r, Footprint(src, ox, oy)) == src
      && forall y, x | 0 <= y < size && 0 <= x < size && !Covers(src, ox, oy, x, y) :: r.rows[y][x] == Clear
  {
    PasteKeepsSource(Blank(size, size), src, ox, oy);
  }

  predicate RowHasContent(r: Raster, y: int)
    requires r.Valid() && 0 <= y < r.height
  {
    exists x | 0 <= x < r.width :: IsContent(r.rows[y][x])
  }

  predicate ColHasContent(r: Raster, x: int)
    requires r.Valid() && 0 <= x < r.width
  {
    exists y | 0 <= y < r.height :: IsContent(r.rows[y][x])
  }

  /** The first row at or below `from` holding content, or the height if there is none. */
  function FirstRow(r: Raster, from: nat): (k: nat)
    requires r.Valid() && from <= r.height
    ensures from <= k <= r.height
    ensures forall y | from <= y < k :: !RowHasContent(r, y)
    ensures k < r.height ==> RowHasContent(r, k)
    decreases r.height - from
  {
    if from == r.height || RowHasContent(r, from) then from else FirstRow(r, from + 1)
  }

  /** One past the last row above `upto` holding content, or 0 if there is none. */
  function RowsEnd(r: Raster, upto: nat): (k: nat)
    requires r.Valid() && upto <= r.height
    ensures k <= upto
    ensures forall y | k <= y < upto :: !RowHasContent(r, y)
    ensures 0 < k ==> RowHasContent(r, k - 1)
  {
    if upto == 0 || RowHasContent(r, upto - 1) then upto else RowsEnd(r, upto - 1)
  }

  /** The first column at or right of `from` holding content, or the width if there is none. */
  function FirstCol(r: Raster, from: nat): (k: nat)
    requires r.Valid() && from <= r.width
    ensures from <= k <= r.width
    ensures forall x | from <= x < k :: !ColHasContent(r, x)
    ensures k < r.width ==> ColHasContent(r, k)
    decreases r.width - from
  {
    if from == r.width || ColHasContent(r, from) then from else FirstCol(r, from + 1)
  }

  /** One past the last column left of `upto` holding content, or 0 if there is none. */
  function ColsEnd(r: Raster, upto: nat): (k: nat)
    requires r.Valid() && upto <= r.width
    ensures k <= upto
    ensures forall x | k <= x < upto :: !ColHasContent(r, x)
    ensures 0 < k ==> ColHasContent(r, k - 1)
  {
    if upto == 0 || ColHasContent(r, upto - 1) then upto else ColsEnd(r, upto - 1)
  }

  /** `getbbox()`: the bounding box of the content pixels, or None when every pixel is transparent. */
  function BBox(r: Raster): Option<Box>
    requires r.Valid()
  {
    var top := FirstRow(r, 0);
    if top == r.height then None
    else Some(Box(FirstCol(r, 0), top, ColsEnd(r, r.width), RowsEnd(r, r.height)))
  }

  predicate NoContent(r: Raster)
    requires r.Valid()
  {
    forall y, x | 0 <= y < r.height && 0 <= x < r.width :: !IsContent(r.rows[y][x])
  }

  /** `b` encloses every content pixel and each of its four edges touches one. */
  predicate IsTightBox(r: Raster, b: Box)
    requires r.Valid()
  {
    && r.Holds(b) && b.left < b.right && b.top < b.bottom
    && (forall y, x | 0 <= y < r.height && 0 <= x < r.width && IsContent(r.rows[y][x]) ::
          b.left <= x < b.right && b.top <= y < b.bottom)
    && RowHasContent(r, b.top) && RowHasContent(r, b.bottom - 1)
    && ColHasContent(r, b.left) && ColHasContent(r, b.right - 1)
  }

  /** `getbbox` reports None exactly for a fully transparent raster, and otherwise the tight box. */
  lemma BBoxIsTight(r: Raster)
    requires r.Valid()
    ensures BBox(r).None? <==> NoContent(r)
    ensures BBox(r).Some? ==> IsTightBox(r, BBox(r).value)
  {
    var top := FirstRow(r, 0);
    if top == r.height {
      forall y, x | 0 <= y < r.height && 0 <= x < r.width ensures !IsContent(r.rows[y][x]) {
        assert !RowHasContent(r, y);
      }
    } else {
      assert RowHasContent(r, top);
      var x0 :| 0 <= x0 < r.width && IsContent(r.rows[top][x0]);
      assert ColHasContent(r, x0);
      var left, right, bottom := FirstCol(r, 0), ColsEnd(r, r.width), RowsEnd(r, r.height);
      assert left <= x0 < right;
      assert top < bottom;
      forall y, x | 0 <= y < r.height && 0 <= x < r.width && IsContent(r.rows[y][x])
        ensures left <= x < right && top <= y < bottom
      {
        assert RowHasContent(r, y);
        assert ColHasContent(r, x);
      }
    }
  }

  /** The reported box lies inside the raster, so it can be cropped. */
  lemma BBoxInside(r: Raster)
    requires r.Valid()
    ensures BBox(r).Some? ==> r.Holds(BBox(r).value)
  {
    BBoxIsTight(r);
  }

  /** At most one box is tight, so the crop is determined by the content alone. */
  lemma TightBoxUnique(r: Raster, b1: Box, b2: Box)
    requires r.Valid() && IsTightBox(r, b1) && IsTightBox(r, b2)
    ensures b1 == b2
  {
    var x1 :| 0 <= x1 < r.width && IsContent(r.rows[b1.top][x1]);
    var x2 :| 0 <= x2 < r.width && IsContent(r.rows[b2.top][x2]);
    var x3 :| 0 <= x3 < r.width && IsContent(r.rows[b1.bottom - 1][x3]);
    var x4 :| 0 <= x4 < r.width && IsContent(r.rows[b2.bottom - 1][x4]);
    var y1 :| 0 <= y1 < r.height && IsContent(r.rows[y1][b1.left]);
    var y2 :| 0 <= y2 < r.height && IsContent(r.rows[y2][b2.left]);
    var y3 :| 0 <= y3 < r.height && IsContent(r.rows[y3][b1.right - 1]);
    var y4 :| 0 <= y4 < r.height && IsContent(r.rows[y4][b2.right - 1]);
  }

  /** Two rasters of the same shape that agree on every pixel are equal. */
  lemma SameRaster(a: Raster, b: Raster)
    requires a.Valid() && b.Valid() && a.width == b.width && a.height == b.height
    requires forall y, x | 0 <= y < a.height && 0 <= x < a.width :: a.rows[y][x] == b.rows[y][x]
    ensures a == b
  {
    forall y | 0 <= y < a.height ensures a.rows[y] == b.rows[y] {
      assert |a.rows[y]| == |b.rows[y]|;
    }
  }
}
