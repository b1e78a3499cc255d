/**
 * The Genesis icon processor: straighten a logo, then fan it out into square
 * launcher icons per screen density and a store icon, for a night and a day
 * theme. Pillow's resampling is a parameter (`Rotation`, `Shrink`); all the
 * integer geometry and the sequencing around it is modelled here.
 */
module Icons {
  import opened Options
  import opened Raster
  import opened Geometry
  import opened Images
  import opened Files

  /** Rotation happens only when the tilt exceeds this many degrees. */
  const Tolerance: real := 0.1

  /** `detect_tilt`: the edge analysis is unfinished and every image gets the calibrated -0.5 degrees. */
  function DetectTilt(image: Raster): real {
    -0.5
  }

  /** `abs(angle) > 0.1`. */
  predicate NeedsRotation(angle: real) {
    angle > Tolerance || -angle > Tolerance
  }

  /* ---------------------------------------------------------------------- */
  /* Straightening                                                          */
  /* ---------------------------------------------------------------------- */

  /** The source pasted, centred and unmasked, on a transparent square as wide as its diagonal plus 10. */
  function ExpandedCanvas(src: Picture): (r: Picture)
    ensures r.width == ExpandedSide(src.width, src.height) && r.height == r.width
  {
    var side := ExpandedSide(src.width, src.height);
    Pasted(Blank(side, side), src, CentreOffset(side, src.width), CentreOffset(side, src.height))
  }

  /**
   * The expanded canvas leaves at least 5 pixels on every side of the source,
   * so nothing is clipped: the window at the offset is the source pixel for
   * pixel and the rest of the canvas is transparent.
   */
  lemma ExpandedCanvasHoldsSource(src: Picture)
    ensures var side := ExpandedSide(src.width, src.height);
      var ox, oy := CentreOffset(side, src.width), CentreOffset(side, src.height);
      && 5 <= ox && ox + src.width + 5 <= side
      && 5 <= oy && oy + src.height + 5 <= side
      && Window(ExpandedCanvas(src), Footprint(src, ox, oy)) == src
      && forall y, x | 0 <= y < side && 0 <= x < side && !Covers(src, ox, oy, x, y) ::
           ExpandedCanvas(src).rows[y][x] == Clear
  {
    var side := ExpandedSide(src.width, src.height);
    var ox, oy := CentreOffset(side, src.width), CentreOffset(side, src.height);
    CentreOffsetBalanced(side, src.width);
    CentreOffsetBalanced(side, src.height);
    PasteOnBlank(side, src, ox, oy);
  }

  /** `straighten_image`: expand, rotate in place on the canvas, crop to the content. */
  function Straightened(src: Picture, angle: real, rotate: Rotation): (r: Picture)
    requires KeepsSize(rotate)
    ensures r.width <= ExpandedSide(src.width, src.height) && r.height <= ExpandedSide(src.width, src.height)
  {
    ContentCrop(rotate(ExpandedCanvas(src), angle))
  }

  /** `image.crop(image.getbbox())`, or the image itself when `getbbox()` is None. */
  function ContentCrop(r: Picture): (c: Picture)
    ensures c.width <= r.width && c.height <= r.height
  {
    match BBox(r)
    case None => r
    case Some(b) => BBoxInside(r); Window(r, b)
  }

  /**
   * The crop keeps exactly the box enclosing the content of the rotated
   * canvas; a canvas without content is returned whole, at its full side.
   */
  lemma StraightenedCropsToContent(src: Picture, angle: real, rotate: Rotation)
    requires KeepsSize(rotate)
    ensures var rotated: Picture := rotate(ExpandedCanvas(src), angle);
      && (NoContent(rotated) ==> Straightened(src, angle, rotate) == rotated)
      && (forall b | IsTightBox(rotated, b) :: Straightened(src, angle, rotate) == Window(rotated, b))
  {
    var rotated: Picture := rotate(ExpandedCanvas(src), angle);
    BBoxIsTight(rotated);
    forall b | IsTightBox(rotated, b) ensures Straightened(src, angle, rotate) == Window(rotated, b) {
      TightBoxUnique(rotated, b, BBox(rotated).value);
    }
  }

  /** The decision in `process_icon`: rotate by the negated tilt only when it exceeds the tolerance. */
  function CorrectFor(src: Picture, tilt: real, rotate: Rotation): Picture
    requires KeepsSize(rotate)
  {
    if NeedsRotation(tilt) then Straightened(src, -tilt, rotate) else src
  }

  /** The corrected image `process_icon` saves and returns. */
  function Corrected(src: Picture, rotate: Rotation): Picture
    requires KeepsSize(rotate)
  {
    CorrectFor(src, DetectTilt(src), rotate)
  }

  /** An aligned image is left untouched. */
  lemma AlignedImageUnchanged(src: Picture, tilt: real, rotate: Rotation)
    requires KeepsSize(rotate) && -Tolerance <= tilt <= Tolerance
    ensures CorrectFor(src, tilt, rotate) == src
  {
  }

  /** As written, the tilt is always -0.5, so every image is rotated by +0.5 degrees. */
  lemma EveryImageRotatedHalfDegree(src: Picture, rotate: Rotation)
    requires KeepsSize(rotate)
    ensures DetectTilt(src) == -0.5 && NeedsRotation(DetectTilt(src))
    ensures Corrected(src, rotate) == Straightened(src, 0.5, rotate)
  {
  }

  /* ---------------------------------------------------------------------- */
  /* Square composition                                                     */
  /* ---------------------------------------------------------------------- */

  /** A thumbnail of the image, pasted with floor-centred offsets on a transparent size x size canvas. */
  function Composed(src: Picture, size: nat, shrink: Shrink): (r: Picture)
    requires FitsWithin(shrink)
    ensures r.width == size && r.height == size
  {
    var t: Picture := shrink(src, size);
    Pasted(Blank(size, size), t, CentreOffset(size, t.width), CentreOffset(size, t.height))
  }

  /**
   * The thumbnail lies wholly inside the square, its left and right (top and
   * bottom) padding differ by at most one pixel, it appears pixel for pixel,
   * and everything around it is transparent.
   */
  lemma ComposedIsCentred(src: Picture, size: nat, shrink: Shrink)
    requires FitsWithin(shrink)
    ensures var t: Picture := shrink(src, size);
      var ox, oy := CentreOffset(size, t.width), CentreOffset(size, t.height);
      && 0 <= ox && ox + t.width <= size && 0 <= (size - t.width - ox) - ox <= 1
      && 0 <= oy && oy + t.height <= size && 0 <= (size - t.height - oy) - oy <= 1
      && Window(Composed(src, size, shrink), Footprint(t, ox, oy)) == t
      && forall y, x | 0 <= y < size && 0 <= x < size && !Covers(t, ox, oy, x, y) ::
           Composed(src, size, shrink).rows[y][x] == Clear
  {
    var t: Picture := shrink(src, size);
    var ox, oy := CentreOffset(size, t.width), CentreOffset(size, t.height);
    CentreOffsetBalanced(size, t.width);
    CentreOffsetBalanced(size, t.height);
    PasteOnBlank(size, t, ox, oy);
  }

  /* ---------------------------------------------------------------------- */
  /* The steps, on images                                                   */
  /* ---------------------------------------------------------------------- */

  /** `straighten_image(image, angle)`. */
  method StraightenImage(image: Image, angle: real, rotate: Rotation) returns (cropped: Image)
    requires KeepsSize(rotate)
    ensures fresh(cropped) && fresh(cropped.pixels)
    ensures cropped.View() == Straightened(image.View(), angle, rotate)
  {
    ghost var src := image.View();
    var expanded := ExpandImage(image);
    assert image.View() == src;
    var rotated := expanded.Rotate(angle, rotate);
    cropped := CropToContent(rotated);
  }

  /** The first steps of `straighten_image`: the source pasted, centred, on a transparent square canvas. */
  method ExpandImage(image: Image) returns (expanded: Image)
    ensures fresh(expanded) && fresh(expanded.pixels)
    ensures expanded.View() == ExpandedCanvas(image.View())
  {
    var width, height := image.Width(), image.Height();
    var newSize := ExpandedSide(width, height);
    expanded := new Image.New(newSize, newSize);
    expanded.Paste(image, CentreOffset(newSize, width), CentreOffset(newSize, height));
  }

  /** The last step of `straighten_image`: crop to the bounding box, or keep the canvas when it is blank. */
  method CropToContent(rotated: Image) returns (cropped: Image)
    ensures fresh(cropped.pixels) || cropped == rotated
    ensures cropped.View() == ContentCrop(rotated.View())
  {
    ghost var canvas := rotated.View();
    var bbox := BBox(rotated.View());
    if bbox.Some? {
      BBoxInside(canvas);
      cropped := rotated.Crop(bbox.value);
      assert ContentCrop(canvas) == Window(canvas, bbox.value);
    } else {
      cropped := rotated;
      assert ContentCrop(canvas) == canvas;
    }
  }

  /** The thumbnail-and-centre steps shared by the launcher icons and the store icon. */
  method ComposeSquare(image: Image, size: nat, shrink: Shrink) returns (icon: Image)
    requires FitsWithin(shrink)
    ensures fresh(icon) && fresh(icon.pixels)
    ensures icon.View() == Composed(image.View(), size, shrink)
  {
    var resized := image.Copy();
    resized.Thumbnail(size, shrink);
    icon := new Image.New(size, size);
    icon.Paste(resized, CentreOffset(size, resized.Width()), CentreOffset(size, resized.Height()));
  }

  /* ---------------------------------------------------------------------- */
  /* Fan-out into density buckets                                           */
  /* ---------------------------------------------------------------------- */

  /** A launcher-icon bucket: the density qualifier and the icon's side in pixels. */
  datatype Density = Density(qualifier: string, size: nat)

  /** The `sizes` table of `create_adaptive_icon_set`, in the order its loop visits the buckets. */
  const Densities: seq<Density> := [
    Density("mdpi", 48), Density("hdpi", 72), Density("xhdpi", 96),
    Density("xxhdpi", 144), Density("xxxhdpi", 192)
  ]

  /** The Play Store icon side. */
  const StoreSize: nat := 512

  /** `<output_dir>/mipmap-<density>`. */
  function DensityDir(outputDir: Path, d: Density): Path {
    outputDir + ["mipmap-" + d.qualifier]
  }

  /** `<output_dir>/mipmap-<density>/<name_prefix>.png`. */
  function IconPath(outputDir: Path, d: Density, namePrefix: string): Path {
    DensityDir(outputDir, d) + [namePrefix + ".png"]
  }

  /** All the icon paths of a bucket list. */
  function IconPaths(outputDir: Path, ds: seq<Density>, namePrefix: string): set<Path> {
    set d | d in ds :: IconPath(outputDir, d, namePrefix)
  }

  /** Two buckets with the same qualifier are the same bucket. */
  predicate QualifiersIdentify(ds: seq<Density>) {
    forall d1, d2 | d1 in ds && d2 in ds && d1.qualifier == d2.qualifier :: d1 == d2
  }

  /** The files after the buckets of `ds` have been written one after the other. */
  function IconSetFiles(files: map<Path, Picture>, src: Picture, outputDir: Path, namePrefix: string,
                        ds: seq<Density>, shrink: Shrink): map<Path, Picture>
    requires FitsWithin(shrink)
    decreases |ds|
  {
    if ds == [] then files
    else
      var d := ds[|ds| - 1];
      IconSetFiles(files, src, outputDir, namePrefix, ds[..|ds| - 1], shrink)
        [IconPath(outputDir, d, namePrefix) := Composed(src, d.size, shrink)]
  }

  /** The directories after the bucket directories of `ds` have been created. */
  function IconSetDirs(dirs: set<Path>, outputDir: Path, ds: seq<Density>): (r: set<Path>)
    ensures dirs <= r
    ensures forall d | d in ds :: DensityDir(outputDir, d) in r
    decreases |ds|
  {
    if ds == [] then dirs
    else IconSetDirs(dirs, outputDir, ds[..|ds| - 1]) + Ancestry(DensityDir(outputDir, ds[|ds| - 1]))
  }

  /** Icon paths differ exactly when the bucket qualifiers do. */
  lemma IconPathInjective(outputDir: Path, d1: Density, d2: Density, namePrefix: string)
    ensures IconPath(outputDir, d1, namePrefix) == IconPath(outputDir, d2, namePrefix) <==> d1.qualifier == d2.qualifier
  {
    var p1, p2 := IconPath(outputDir, d1, namePrefix), IconPath(outputDir, d2, namePrefix);
    if p1 == p2 {
      assert p1[|outputDir|] == p2[|outputDir|];
      assert d1.qualifier == ("mipmap-" + d1.qualifier)[7..];
    }
  }

  /** The bucket `d` ends up holding the image composed at its size. */
  lemma {:induction false} IconSetWrites(files: map<Path, Picture>, src: Picture, outputDir: Path,
                                         namePrefix: string, ds: seq<Density>, shrink: Shrink, d: Density)
    requires FitsWithin(shrink) && QualifiersIdentify(ds) && d in ds
    ensures var out := IconSetFiles(files, src, outputDir, namePrefix, ds, shrink);
      IconPath(outputDir, d, namePrefix) in out && out[IconPath(outputDir, d, namePrefix)] == Composed(src, d.size, shrink)
    decreases |ds|
  {
    var init, last := ds[..|ds| - 1], ds[|ds| - 1];
    IconPathInjective(outputDir, d, last, namePrefix);
    if d != last {
      var i :| 0 <= i < |ds| && ds[i] == d;
      assert init[i] == d;
      assert QualifiersIdentify(init) by {
        forall e | e in init ensures e in ds { }
      }
      IconSetWrites(files, src, outputDir, namePrefix, init, shrink, d);
    }
  }

  /** A path that is not one of the bucket paths is left as it was. */
  lemma {:induction false} IconSetKeeps(files: map<Path, Picture>, src: Picture, outputDir: Path,
                                        namePrefix: string, ds: seq<Density>, shrink: Shrink, p: Path)
    requires FitsWithin(shrink) && p !in IconPaths(outputDir, ds, namePrefix)
    ensures var out := IconSetFiles(files, src, outputDir, namePrefix, ds, shrink);
      (p in out <==> p in files) && (p in files ==> out[p] == files[p])
    decreases |ds|
  {
    if ds != [] {
      var init, last := ds[..|ds| - 1], ds[|ds| - 1];
      assert last in ds;
      assert p !in IconPaths(outputDir, init, namePrefix) by {
        forall e | e in init ensures e in ds { }
      }
      IconSetKeeps(files, src, outputDir, namePrefix, init, shrink, p);
    }
  }

  /**
   * The fan-out writes one file per bucket, at that bucket's path, holding
   * the image composed at that bucket's size, and leaves every other path as
   * it was.
   */
  lemma IconSetContents(files: map<Path, Picture>, src: Picture, outputDir: Path,
                        namePrefix: string, ds: seq<Density>, shrink: Shrink)
    requires FitsWithin(shrink) && QualifiersIdentify(ds)
    ensures var out := IconSetFiles(files, src, outputDir, namePrefix, ds, shrink);
      && (forall d | d in ds ::
            IconPath(outputDir, d, namePrefix) in out
            && out[IconPath(outputDir, d, namePrefix)] == Composed(src, d.size, shrink))
      && (forall p | p !in IconPaths(outputDir, ds, namePrefix) ::
            (p in out <==> p in files) && (p in files ==> out[p] == files[p]))
  {
    forall d | d in ds {
      IconSetWrites(files, src, outputDir, namePrefix, ds, shrink, d);
    }
    forall p | p !in IconPaths(outputDir, ds, namePrefix) {
      IconSetKeeps(files, src, outputDir, namePrefix, ds, shrink, p);
    }
  }

  /** Reordering the buckets does not change what the fan-out writes. */
  lemma IconSetOrderIrrelevant(files: map<Path, Picture>, src: Picture, outputDir: Path, namePrefix: string,
                               ds1: seq<Density>, ds2: seq<Density>, shrink: Shrink)
    requires FitsWithin(shrink) && QualifiersIdentify(ds1)
    requires forall d :: d in ds1 <==> d in ds2
    ensures IconSetFiles(files, src, outputDir, namePrefix, ds1, shrink)
         == IconSetFiles(files, src, outputDir, namePrefix, ds2, shrink)
  {
    IconSetContents(files, src, outputDir, namePrefix, ds1, shrink);
    IconSetContents(files, src, outputDir, namePrefix, ds2, shrink);
    var out1 := IconSetFiles(files, src, outputDir, namePrefix, ds1, shrink);
    var out2 := IconSetFiles(files, src, outputDir, namePrefix, ds2, shrink);
    assert IconPaths(outputDir, ds1, namePrefix) == IconPaths(outputDir, ds2, namePrefix);
    forall p ensures (p in out1 <==> p in out2) && (p in out1 ==> out1[p] == out2[p]) {
      if p in IconPaths(outputDir, ds1, namePrefix) {
        var d :| d in ds1 && p == IconPath(outputDir, d, namePrefix);
      }
    }
  }

  /** The five qualifiers of the density table are pairwise different. */
  lemma DensityQualifiersDistinct()
    ensures forall i, j | 0 <= i < j < |Densities| :: Densities[i].qualifier != Densities[j].qualifier
  {
    assert Densities[0].qualifier[0] != Densities[1].qualifier[0];
  }

  /**
   * The density table names five different buckets of sides 48, 72, 96, 144
   * and 192, so the fan-out produces five different paths.
   */
  lemma DensityTable(outputDir: Path, namePrefix: string)
    ensures QualifiersIdentify(Densities)
    ensures forall i, j | 0 <= i < j < |Densities| ::
      IconPath(outputDir, Densities[i], namePrefix) != IconPath(outputDir, Densities[j], namePrefix)
  {
    DensityQualifiersDistinct();
    forall i, j | 0 <= i < j < |Densities|
      ensures IconPath(outputDir, Densities[i], namePrefix) != IconPath(outputDir, Densities[j], namePrefix)
    {
      IconPathInjective(outputDir, Densities[i], Densities[j], namePrefix);
    }
  }

  /* ---------------------------------------------------------------------- */
  /* Writing the icons                                                      */
  /* ---------------------------------------------------------------------- */

  /**
   * `create_adaptive_icon_set`: for each bucket in table order, create its
   * directory and save the composed icon there.
   */
  method CreateAdaptiveIconSet(fs: FileSystem, image: Image, outputDir: Path, namePrefix: string, shrink: Shrink)
    requires FitsWithin(shrink)
    modifies fs
    ensures fs.files == IconSetFiles(old(fs.files), image.View(), outputDir, namePrefix, Densities, shrink)
    ensures fs.dirs == IconSetDirs(old(fs.dirs), outputDir, Densities)
  {
    WriteBuckets(fs, image, outputDir, Densities, namePrefix, shrink);
  }

  /** The loop of `create_adaptive_icon_set` over a bucket table. The caller's image is only copied, never changed. */
  method WriteBuckets(fs: FileSystem, image: Image, outputDir: Path, ds: seq<Density>, namePrefix: string, shrink: Shrink)
    requires FitsWithin(shrink)
    modifies fs
    ensures fs.files == IconSetFiles(old(fs.files), image.View(), outputDir, namePrefix, ds, shrink)
    ensures fs.dirs == IconSetDirs(old(fs.dirs), outputDir, ds)
  {
    ghost var files0, dirs0, src := fs.files, fs.dirs, image.View();
    var i := 0;
    while i < |ds|
      invariant 0 <= i <= |ds|
      invariant image.View() == src
      invariant fs.files == IconSetFiles(files0, src, outputDir, namePrefix, ds[..i], shrink)
      invariant fs.dirs == IconSetDirs(dirs0, outputDir, ds[..i])
    {
      WriteBucket(fs, image, outputDir, ds[i], namePrefix, shrink);
      assert ds[..i + 1][..i] == ds[..i];
      i := i + 1;
    }
    assert ds[..i] == ds;
  }

  /** One pass of the loop in `create_adaptive_icon_set`. */
  method WriteBucket(fs: FileSystem, image: Image, outputDir: Path, d: Density, namePrefix: string, shrink: Shrink)
    requires FitsWithin(shrink)
    modifies fs
    ensures fs.files == old(fs.files)[IconPath(outputDir, d, namePrefix) := Composed(image.View(), d.size, shrink)]
    ensures fs.dirs == old(fs.dirs) + Ancestry(DensityDir(outputDir, d))
  {
    ghost var src := image.View();
    var densityDir := DensityDir(outputDir, d);
    fs.MakeDirs(densityDir);
    assert image.View() == src;
    var icon := ComposeSquare(image, d.size, shrink);
    var outputPath := IconPath(outputDir, d, namePrefix);
    assert Parent(outputPath) == densityDir;
    var ok := fs.Save(outputPath, icon);
    assert ok;
  }

  /** `create_play_store_icon`: compose at 512 and save at `outputPath`. */
  method CreatePlayStoreIcon(fs: FileSystem, image: Image, outputPath: Path, shrink: Shrink) returns (ok: bool)
    requires FitsWithin(shrink)
    modifies fs
    ensures ok == (|outputPath| > 0 && Parent(outputPath) in old(fs.dirs))
    ensures fs.dirs == old(fs.dirs)
    ensures fs.files == if ok then old(fs.files)[outputPath := Composed(image.View(), StoreSize, shrink)] else old(fs.files)
  {
    var icon := ComposeSquare(image, StoreSize, shrink);
    ok := fs.Save(outputPath, icon);
  }

  /* ---------------------------------------------------------------------- */
  /* One source icon                                                        */
  /* ---------------------------------------------------------------------- */

  /** `<output_dir>/<name>.png`, where the high-resolution corrected icon goes. */
  function MainPath(outputDir: Path, name: string): Path {
    outputDir + [name + ".png"]
  }

  /** What `process_icon` returns: nothing for a missing source, else the corrected image. */
  function ProcessResult(files: map<Path, Picture>, inputPath: Path, rotate: Rotation): Option<Picture>
    requires KeepsSize(rotate)
  {
    if inputPath in files then Some(Corrected(files[inputPath], rotate)) else None
  }

  /** The files after `process_icon`: the corrected image saved at the main path, if there was a source. */
  function ProcessFiles(files: map<Path, Picture>, inputPath: Path, outputDir: Path, name: string,
                        rotate: Rotation): map<Path, Picture>
    requires KeepsSize(rotate)
  {
    match ProcessResult(files, inputPath, rotate)
    case None => files
    case Some(c) => files[MainPath(outputDir, name) := c]
  }

  /** The directories after `process_icon`: the output directory exists, if there was a source. */
  function ProcessDirs(dirs: set<Path>, files: map<Path, Picture>, inputPath: Path, outputDir: Path): set<Path> {
    if inputPath in files then dirs + Ancestry(outputDir) else dirs
  }

  /**
   * `process_icon`: a missing source returns nothing before anything is
   * written; otherwise the source is loaded, rotated by the negated tilt when
   * that exceeds the tolerance, saved under `<name>.png` in the output
   * directory, and returned.
   */
  method ProcessIcon(fs: FileSystem, inputPath: Path, outputDir: Path, name: string, rotate: Rotation)
    returns (corrected: Option<Image>)
    requires KeepsSize(rotate)
    modifies fs
    ensures corrected.None? <==> inputPath !in old(fs.files)
    ensures corrected.Some? ==>
      && fresh(corrected.value) && fresh(corrected.value.pixels)
      && corrected.value.View() == Corrected(old(fs.files)[inputPath], rotate)
    ensures fs.files == ProcessFiles(old(fs.files), inputPath, outputDir, name, rotate)
    ensures fs.dirs == ProcessDirs(old(fs.dirs), old(fs.files), inputPath, outputDir)
  {
    if inputPath !in fs.files {
      return None;
    }
    var c := CorrectSource(fs.files[inputPath], rotate);
    ghost var picture := c.View();
    fs.MakeDirs(outputDir);
    var ok := fs.Save(MainPath(outputDir, name), c);
    assert ok;
    corrected := Some(c);
  }

  /** The part of `process_icon` between opening the source and saving it. */
  method CorrectSource(source: Picture, rotate: Rotation) returns (c: Image)
    requires KeepsSize(rotate)
    ensures fresh(c) && fresh(c.pixels) && c.View() == Corrected(source, rotate)
  {
    var image := new Image.FromRaster(source);
    var tilt := DetectTilt(image.View());
    ghost var corrected := Corrected(source, rotate);
    if NeedsRotation(tilt) {
      c := StraightenImage(image, -tilt, rotate);
      assert corrected == Straightened(source, -tilt, rotate);
    } else {
      c := image;
    }
  }

  /* ---------------------------------------------------------------------- */
  /* The two themes                                                         */
  /* ---------------------------------------------------------------------- */

  datatype Theme = Night | Day

  /** The file stem of a theme's high-resolution icon. */
  function MainName(t: Theme): string {
    match t
    case Night => "ic_genesis_night"
    case Day => "ic_genesis_day"
  }

  /** The resource directory of a theme's launcher icon set. */
  function ResDir(t: Theme): string {
    match t
    case Night => "res-night"
    case Day => "res-day"
  }

  /** The file name of a theme's store icon, directly in the base directory. */
  function StoreFile(t: Theme): string {
    match t
    case Night => "ic_genesis_night_512.png"
    case Day => "ic_genesis_day_512.png"
  }

  /** Every launcher icon is saved under this stem. */
  const LauncherName := "ic_launcher"

  /** `<base_dir>/app/src/main/res`. */
  function OutputBase(baseDir: Path): Path {
    baseDir + ["app", "src", "main", "res"]
  }

  /** `<output_base>/res-<theme>`. */
  function IconDir(baseDir: Path, t: Theme): Path {
    OutputBase(baseDir) + [ResDir(t)]
  }

  /** `<base_dir>/ic_genesis_<theme>_512.png`. */
  function StorePath(baseDir: Path, t: Theme): Path {
    baseDir + [StoreFile(t)]
  }

  /** `<output_base>/ic_genesis_<theme>.png`. */
  function ThemeMain(baseDir: Path, t: Theme): Path {
    MainPath(OutputBase(baseDir), MainName(t))
  }

  /** The paths a theme's icon set and store icon are written to. */
  predicate IsEmitted(baseDir: Path, t: Theme, p: Path) {
    p == StorePath(baseDir, t) || p in IconPaths(IconDir(baseDir, t), Densities, LauncherName)
  }

  /** All seven paths a theme writes. */
  predicate IsThemeOutput(baseDir: Path, t: Theme, p: Path) {
    p == ThemeMain(baseDir, t) || IsEmitted(baseDir, t, p)
  }

  /** The files after one `if <theme>_processed:` branch of `main`. */
  function EmitFiles(files: map<Path, Picture>, processed: Option<Picture>, baseDir: Path, t: Theme,
                     shrink: Shrink): map<Path, Picture>
    requires FitsWithin(shrink)
  {
    match processed
    case None => files
    case Some(c) =>
      IconSetFiles(files, c, IconDir(baseDir, t), LauncherName, Densities, shrink)
        [StorePath(baseDir, t) := Composed(c, StoreSize, shrink)]
  }

  /** The directories after one `if <theme>_processed:` branch of `main`. */
  function EmitDirs(dirs: set<Path>, processed: Option<Picture>, baseDir: Path, t: Theme): set<Path> {
    if processed.Some? then IconSetDirs(dirs, IconDir(baseDir, t), Densities) else dirs
  }

  /**
   * What `process_icon` returns for a theme. The night icon is processed
   * first, so the day source is looked up after the night icon is saved.
   */
  function ThemeResult(files: map<Path, Picture>, baseDir: Path, nightIcon: Path, dayIcon: Path,
                       rotate: Rotation, t: Theme): Option<Picture>
    requires KeepsSize(rotate)
  {
    match t
    case Night => ProcessResult(files, nightIcon, rotate)
    case Day =>
      ProcessResult(ProcessFiles(files, nightIcon, OutputBase(baseDir), MainName(Night), rotate), dayIcon, rotate)
  }

  /** The files after `main`: process night, process day, then emit night, then emit day. */
  function RunFiles(files: map<Path, Picture>, baseDir: Path, nightIcon: Path, dayIcon: Path,
                    rotate: Rotation, shrink: Shrink): map<Path, Picture>
    requires KeepsSize(rotate) && FitsWithin(shrink)
  {
    var files1 := ProcessFiles(files, nightIcon, OutputBase(baseDir), MainName(Night), rotate);
    var files2 := ProcessFiles(files1, dayIcon, OutputBase(baseDir), MainName(Day), rotate);
    var files3 := EmitFiles(files2, ThemeResult(files, baseDir, nightIcon, dayIcon, rotate, Night), baseDir, Night, shrink);
    EmitFiles(files3, ThemeResult(files, baseDir, nightIcon, dayIcon, rotate, Day), baseDir, Day, shrink)
  }

  /** The directories after `main`. */
  function RunDirs(dirs: set<Path>, files: map<Path, Picture>, baseDir: Path, nightIcon: Path, dayIcon: Path,
                   rotate: Rotation): set<Path>
    requires KeepsSize(rotate)
  {
    var files1 := ProcessFiles(files, nightIcon, OutputBase(baseDir), MainName(Night), rotate);
    var dirs1 := ProcessDirs(dirs, files, nightIcon, OutputBase(baseDir));
    var dirs2 := ProcessDirs(dirs1, files1, dayIcon, OutputBase(baseDir));
    var dirs3 := EmitDirs(dirs2, ThemeResult(files, baseDir, nightIcon, dayIcon, rotate, Night), baseDir, Night);
    EmitDirs(dirs3, ThemeResult(files, baseDir, nightIcon, dayIcon, rotate, Day), baseDir, Day)
  }

  /**
   * The body of `main` with the base directory and the two source paths as
   * parameters: process both sources, then, for each theme whose source was
   * found, write its launcher icon set and its store icon.
   */
  method RunThemes(fs: FileSystem, baseDir: Path, nightIcon: Path, dayIcon: Path, rotate: Rotation, shrink: Shrink)
    requires KeepsSize(rotate) && FitsWithin(shrink)
    modifies fs
    ensures fs.files == RunFiles(old(fs.files), baseDir, nightIcon, dayIcon, rotate, shrink)
    ensures fs.dirs == RunDirs(old(fs.dirs), old(fs.files), baseDir, nightIcon, dayIcon, rotate)
  {
    ghost var files0, dirs0 := fs.files, fs.dirs;
    ghost var nightResult := ThemeResult(files0, baseDir, nightIcon, dayIcon, rotate, Night);
    ghost var dayResult := ThemeResult(files0, baseDir, nightIcon, dayIcon, rotate, Day);
    var outputBase := OutputBase(baseDir);
    assert outputBase[..|baseDir|] == baseDir;
    var night := ProcessIcon(fs, nightIcon, outputBase, MainName(Night), rotate);
    var day := ProcessIcon(fs, dayIcon, outputBase, MainName(Day), rotate);
    assert night.Some? ==> night.value.View() == nightResult.value;
    assert nightResult.Some? || dayResult.Some? ==> baseDir in fs.dirs;
    EmitIfProcessed(fs, night, nightResult, baseDir, Night, shrink);
    EmitIfProcessed(fs, day, dayResult, baseDir, Day, shrink);
  }

  /** `if <theme>_processed:` in `main`, given what `process_icon` returned. */
  method EmitIfProcessed(fs: FileSystem, icon: Option<Image>, ghost processed: Option<Picture>, baseDir: Path,
                         t: Theme, shrink: Shrink)
    requires FitsWithin(shrink)
    requires icon.Some? <==> processed.Some?
    requires icon.Some? ==> icon.value.View() == processed.value && baseDir in fs.dirs
    modifies fs
    ensures fs.files == EmitFiles(old(fs.files), processed, baseDir, t, shrink)
    ensures fs.dirs == EmitDirs(old(fs.dirs), processed, baseDir, t)
    ensures baseDir in old(fs.dirs) ==> baseDir in fs.dirs
  {
    if icon.Some? {
      EmitTheme(fs, icon.value, baseDir, t, shrink);
    }
  }

  /** One `if <theme>_processed:` branch of `main`; the base directory exists once the theme's source was processed. */
  method EmitTheme(fs: FileSystem, icon: Image, baseDir: Path, t: Theme, shrink: Shrink)
    requires FitsWithin(shrink) && baseDir in fs.dirs
    modifies fs
    ensures fs.files == EmitFiles(old(fs.files), Some(icon.View()), baseDir, t, shrink)
    ensures fs.dirs == EmitDirs(old(fs.dirs), Some(icon.View()), baseDir, t)
  {
    CreateAdaptiveIconSet(fs, icon, IconDir(baseDir, t), LauncherName, shrink);
    var ok := CreatePlayStoreIcon(fs, icon, StorePath(baseDir, t), shrink);
    assert ok;
  }

  /* ---------------------------------------------------------------------- */
  /* What a run writes                                                      */
  /* ---------------------------------------------------------------------- */

  /** The two maps agree at `p`: both lack it, or both hold the same image there. */
  predicate SameAt(m1: map<Path, Picture>, m2: map<Path, Picture>, p: Path) {
    (p in m1 <==> p in m2) && (p in m1 ==> m1[p] == m2[p])
  }

  /** Every launcher icon path of a theme is `<base>/app/src/main/res/res-<theme>/mipmap-<d>/ic_launcher.png`. */
  lemma IconPathShape(baseDir: Path, t: Theme, p: Path)
    requires p in IconPaths(IconDir(baseDir, t), Densities, LauncherName)
    ensures |p| == |baseDir| + 7 && p[|baseDir| + 4] == ResDir(t)
  {
    var d :| d in Densities && p == IconPath(IconDir(baseDir, t), d, LauncherName);
  }

  /**
   * Within a theme the main icon, the store icon and the launcher icons go to
   * different paths, and no path is written by both themes.
   */
  lemma ThemeOutputsDisjoint(baseDir: Path, p: Path)
    ensures forall t: Theme :: !IsEmitted(baseDir, t, ThemeMain(baseDir, t))
    ensures forall t: Theme :: StorePath(baseDir, t) !in IconPaths(IconDir(baseDir, t), Densities, LauncherName)
    ensures !(IsThemeOutput(baseDir, Night, p) && IsThemeOutput(baseDir, Day, p))
  {
    forall t: Theme ensures !IsEmitted(baseDir, t, ThemeMain(baseDir, t))
      && StorePath(baseDir, t) !in IconPaths(IconDir(baseDir, t), Densities, LauncherName)
    {
      if ThemeMain(baseDir, t) in IconPaths(IconDir(baseDir, t), Densities, LauncherName) {
        IconPathShape(baseDir, t, ThemeMain(baseDir, t));
      }
      if StorePath(baseDir, t) in IconPaths(IconDir(baseDir, t), Densities, LauncherName) {
        IconPathShape(baseDir, t, StorePath(baseDir, t));
      }
    }
    if p in IconPaths(IconDir(baseDir, Night), Densities, LauncherName) {
      IconPathShape(baseDir, Night, p);
      if p in IconPaths(IconDir(baseDir, Day), Densities, LauncherName) {
        IconPathShape(baseDir, Day, p);
      }
    } else if p in IconPaths(IconDir(baseDir, Day), Densities, LauncherName) {
      IconPathShape(baseDir, Day, p);
    }
    assert ThemeMain(baseDir, Night) != ThemeMain(baseDir, Day) by {
      assert ThemeMain(baseDir, Night)[|baseDir| + 4] != ThemeMain(baseDir, Day)[|baseDir| + 4];
    }
    assert StorePath(baseDir, Night) != StorePath(baseDir, Day) by {
      assert StorePath(baseDir, Night)[|baseDir|] != StorePath(baseDir, Day)[|baseDir|];
    }
  }

  /** A path outside a theme's icon set and store icon is left alone by that theme's branch. */
  lemma EmitKeeps(files: map<Path, Picture>, processed: Option<Picture>, baseDir: Path, t: Theme, shrink: Shrink, p: Path)
    requires FitsWithin(shrink) && !IsEmitted(baseDir, t, p)
    ensures SameAt(EmitFiles(files, processed, baseDir, t, shrink), files, p)
  {
    if processed.Some? {
      IconSetKeeps(files, processed.value, IconDir(baseDir, t), LauncherName, Densities, shrink, p);
    }
  }

  /** A theme's branch writes each launcher icon at its bucket size and the store icon at 512. */
  lemma EmitWrites(files: map<Path, Picture>, c: Picture, baseDir: Path, t: Theme, shrink: Shrink)
    requires FitsWithin(shrink)
    ensures var out := EmitFiles(files, Some(c), baseDir, t, shrink);
      && StorePath(baseDir, t) in out && out[StorePath(baseDir, t)] == Composed(c, StoreSize, shrink)
      && forall d | d in Densities ::
           IconPath(IconDir(baseDir, t), d, LauncherName) in out
           && out[IconPath(IconDir(baseDir, t), d, LauncherName)] == Composed(c, d.size, shrink)
  {
    DensityTable(IconDir(baseDir, t), LauncherName);
    ThemeOutputsDisjoint(baseDir, []);
    forall d | d in Densities
      ensures var out := EmitFiles(files, Some(c), baseDir, t, shrink);
        IconPath(IconDir(baseDir, t), d, LauncherName) in out
        && out[IconPath(IconDir(baseDir, t), d, LauncherName)] == Composed(c, d.size, shrink)
    {
      IconSetWrites(files, c, IconDir(baseDir, t), LauncherName, Densities, shrink, d);
      assert IconPath(IconDir(baseDir, t), d, LauncherName) in IconPaths(IconDir(baseDir, t), Densities, LauncherName);
    }
  }

  /**
   * A theme whose source is missing is skipped: none of its seven output
   * paths is written, whatever happens to the other theme.
   */
  lemma RunSkipsMissingTheme(files: map<Path, Picture>, baseDir: Path, nightIcon: Path, dayIcon: Path,
                             rotate: Rotation, shrink: Shrink, t: Theme, p: Path)
    requires KeepsSize(rotate) && FitsWithin(shrink)
    requires ThemeResult(files, baseDir, nightIcon, dayIcon, rotate, t).None? && IsThemeOutput(baseDir, t, p)
    ensures SameAt(RunFiles(files, baseDir, nightIcon, dayIcon, rotate, shrink), files, p)
  {
    var files1 := ProcessFiles(files, nightIcon, OutputBase(baseDir), MainName(Night), rotate);
    var files2 := ProcessFiles(files1, dayIcon, OutputBase(baseDir), MainName(Day), rotate);
    var nightResult := ThemeResult(files, baseDir, nightIcon, dayIcon, rotate, Night);
    var dayResult := ThemeResult(files, baseDir, nightIcon, dayIcon, rotate, Day);
    var files3 := EmitFiles(files2, nightResult, baseDir, Night, shrink);
    ThemeOutputsDisjoint(baseDir, p);
    if t == Night {
      EmitKeeps(files3, dayResult, baseDir, Day, shrink, p);
    } else {
      EmitKeeps(files2, nightResult, baseDir, Night, shrink, p);
    }
  }

  /**
   * A theme whose source is found gets all seven outputs: the corrected image
   * at its main path, each launcher icon composed at its bucket's size and
   * the store icon composed at 512, whatever happens to the other theme.
   */
  lemma RunWritesTheme(files: map<Path, Picture>, baseDir: Path, nightIcon: Path, dayIcon: Path,
                       rotate: Rotation, shrink: Shrink, t: Theme)
    requires KeepsSize(rotate) && FitsWithin(shrink)
    requires ThemeResult(files, baseDir, nightIcon, dayIcon, rotate, t).Some?
    ensures var c := ThemeResult(files, baseDir, nightIcon, dayIcon, rotate, t).value;
      var out := RunFiles(files, baseDir, nightIcon, dayIcon, rotate, shrink);
      && ThemeMain(baseDir, t) in out && out[ThemeMain(baseDir, t)] == c
      && StorePath(baseDir, t) in out && out[StorePath(baseDir, t)] == Composed(c, StoreSize, shrink)
      && out[StorePath(baseDir, t)].width == StoreSize && out[StorePath(baseDir, t)].height == StoreSize
      && forall d | d in Densities ::
           IconPath(IconDir(baseDir, t), d, LauncherName) in out
           && out[IconPath(IconDir(baseDir, t), d, LauncherName)] == Composed(c, d.size, shrink)
           && out[IconPath(IconDir(baseDir, t), d, LauncherName)].width == d.size
           && out[IconPath(IconDir(baseDir, t), d, LauncherName)].height == d.size
  {
    var c := ThemeResult(files, baseDir, nightIcon, dayIcon, rotate, t).value;
    var files1 := ProcessFiles(files, nightIcon, OutputBase(baseDir), MainName(Night), rotate);
    var files2 := ProcessFiles(files1, dayIcon, OutputBase(baseDir), MainName(Day), rotate);
    var nightResult := ThemeResult(files, baseDir, nightIcon, dayIcon, rotate, Night);
    var dayResult := ThemeResult(files, baseDir, nightIcon, dayIcon, rotate, Day);
    var files3 := EmitFiles(files2, nightResult, baseDir, Night, shrink);
    var out := RunFiles(files, baseDir, nightIcon, dayIcon, rotate, shrink);
    var main := ThemeMain(baseDir, t);
    ThemeOutputsDisjoint(baseDir, main);
    EmitKeeps(files3, dayResult, baseDir, Day, shrink, main);
    EmitKeeps(files2, nightResult, baseDir, Night, shrink, main);
    assert out[main] == c;
    if t == Night {
      EmitWrites(files2, c, baseDir, Night, shrink);
      forall p | IsEmitted(baseDir, Night, p) ensures SameAt(out, files3, p) {
        ThemeOutputsDisjoint(baseDir, p);
        EmitKeeps(files3, dayResult, baseDir, Day, shrink, p);
      }
      assert IsEmitted(baseDir, Night, StorePath(baseDir, Night));
      forall d | d in Densities ensures IsEmitted(baseDir, Night, IconPath(IconDir(baseDir, Night), d, LauncherName)) {
        assert IconPath(IconDir(baseDir, Night), d, LauncherName) in IconPaths(IconDir(baseDir, Night), Densities, LauncherName);
      }
    } else {
      EmitWrites(files3, c, baseDir, Day, shrink);
    }
  }
}
