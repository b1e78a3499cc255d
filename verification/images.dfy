/**
 * Pillow images as mutable pixel buffers: `paste` and `thumbnail` change an
 * image in place, `copy`, `crop` and `rotate` produce new ones.
 */
module Images {
  import opened Raster

  /** Pillow's bicubic `rotate(angle, expand=False)`; its resampling is not modelled. */
  type Rotation = (Raster, real) -> Raster

  /** Pillow's Lanczos `thumbnail((size, size))`; its resampling is not modelled. */
  type Shrink = (Raster, nat) -> Raster

  /** What the model assumes of rotation: the canvas keeps its size. */
  ghost predicate KeepsSize(rotate: Rotation) {
    forall r: Raster, angle: real :: r.Valid() ==>
      rotate(r, angle).Valid() && rotate(r, angle).width == r.width && rotate(r, angle).height == r.height
  }

  /** What the model assumes of thumbnailing: the result fits the square and never grows. */
  ghost predicate FitsWithin(shrink: Shrink) {
    forall r: Raster, size: nat :: r.Valid() ==>
      && shrink(r, size).Valid()
      && shrink(r, size).width <= size && shrink(r, size).height <= size
      && shrink(r, size).width <= r.width && shrink(r, size).height <= r.height
  }

  /** A fresh buffer holding the pixels of `r`; `pixels[y, x]` is column x of row y. */
  method Buffer(r: Raster) returns (a: array2<Pixel>)
    requires r.Valid()
    ensures fresh(a) && a.Length0 == r.height && a.Length1 == r.width
    ensures forall y, x | 0 <= y < r.height && 0 <= x < r.width :: a[y, x] == r.rows[y][x]
  {
    a := new Pixel[r.height, r.width]((y, x) requires r.Valid() && 0 <= y < r.height && 0 <= x < r.width => r.rows[y][x]);
  }

  class Image {
    var pixels: array2<Pixel>

    function Width(): nat reads this { pixels.Length1 }

    function Height(): nat reads this { pixels.Length0 }

    /** The raster the buffer holds. */
    function View(): (r: Raster)
      reads this, pixels
      ensures r.Valid() && r.width == pixels.Length1 && r.height == pixels.Length0
      ensures forall y, x | 0 <= y < r.height && 0 <= x < r.width :: r.rows[y][x] == pixels[y, x]
    {
      var a := pixels;
      Raster(a.Length1, a.Length0,
        seq(a.Length0, y requires 0 <= y < a.Length0 reads a =>
          seq(a.Length1, x requires 0 <= x < a.Length1 reads a => a[y, x])))
    }

    /** `Image.new('RGBA', (w, h), (0, 0, 0, 0))`. */
    constructor New(w: nat, h: nat)
      ensures fresh(pixels) && View() == Blank(w, h)
    {
      pixels := new Pixel[h, w]((y, x) => Clear);
      new;
      SameRaster(View(), Blank(w, h));
    }

    /** An image holding the decoded pixels `r` (`Image.open(path).convert('RGBA')`). */
    constructor FromRaster(r: Raster)
      requires r.Valid()
      ensures fresh(pixels) && View() == r
    {
      var a := Buffer(r);
      pixels := a;
      new;
      SameRaster(View(), r);
    }

    /** `image.copy()`: a new image with its own buffer and the same pixels. */
    method Copy() returns (c: Image)
      ensures fresh(c) && fresh(c.pixels) && c.View() == View()
    {
      c := new Image.FromRaster(View());
    }

    /** `self.paste(src, (ox, oy))` with no mask, in place. */
    method Paste(src: Image, ox: int, oy: int)
      requires src.pixels != pixels
      modifies pixels
      ensures View() == Pasted(old(View()), src.View(), ox, oy)
    {
      ghost var before := View();
      var a, s := pixels, src.pixels;
      forall y, x | 0 <= y < a.Length0 && 0 <= x < a.Length1 && ox <= x < ox + s.Length1 && oy <= y < oy + s.Length0 {
        a[y, x] := s[y - oy, x - ox];
      }
      SameRaster(View(), Pasted(before, src.View(), ox, oy));
    }

    /** `self.crop(b)` for a box inside the image. */
    method Crop(b: Box) returns (c: Image)
      requires View().Holds(b)
      ensures fresh(c) && fresh(c.pixels) && c.View() == Window(View(), b)
    {
      c := new Image.FromRaster(Window(View(), b));
    }

    /** `self.rotate(angle, resample=BICUBIC, expand=False)`. */
    method Rotate(angle: real, rotate: Rotation) returns (r: Image)
      requires KeepsSize(rotate)
      ensures fresh(r) && fresh(r.pixels) && r.View() == rotate(View(), angle)
    {
      r := new Image.FromRaster(rotate(View(), angle));
    }

    /** `self.thumbnail((size, size), LANCZOS)`: shrinks the image in place. */
    method Thumbnail(size: nat, shrink: Shrink)
      requires FitsWithin(shrink)
      modifies this
      ensures fresh(pixels) && View() == shrink(old(View()), size)
    {
      var t := shrink(View(), size);
      pixels := Buffer(t);
      SameRaster(View(), t);
    }
  }
}
