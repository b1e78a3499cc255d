/**
 * The file system as the icon pipeline sees it: directories that exist and
 * image files holding pixels. Encoding to and decoding from PNG are lossless
 * here, so a file holds exactly the raster that was saved.
 */
module Files {
  import opened Raster
  import opened Images

  /** A path as its components below the root; `os.path.join(d, n)` is `d + [n]`. */
  type Path = seq<string>

  function Parent(p: Path): Path
    requires |p| > 0
  {
    p[..|p| - 1]
  }

  /** The directory and all its ancestors, which `os.makedirs` creates. */
  function Ancestry(p: Path): (s: set<Path>)
    ensures p in s && forall i | 0 <= i <= |p| :: p[..i] in s
  {
    assert p[..|p|] == p;
    set i | 0 <= i <= |p| :: p[..i]
  }

  class FileSystem {
    var dirs: set<Path>
    var files: map<Path, Picture>

    constructor (dirs: set<Path>, files: map<Path, Picture>)
      ensures this.dirs == dirs && this.files == files
    {
      this.dirs := dirs;
      this.files := files;
    }

    /** `os.path.exists(p)` for an input image. */
    predicate Exists(p: Path)
      reads this
    {
      p in files
    }

    /** `os.makedirs(p, exist_ok=True)`: never fails, and repeating it changes nothing. */
    method MakeDirs(p: Path)
      modifies this
      ensures dirs == old(dirs) + Ancestry(p) && files == old(files)
      ensures p in dirs && old(dirs) <= dirs
      ensures Ancestry(p) <= old(dirs) ==> dirs == old(dirs)
    {
      dirs := dirs + Ancestry(p);
    }

    /**
     * `image.save(p, 'PNG')`. It succeeds exactly when the parent directory
     * exists; the source would raise otherwise, here `ok` is false.
     */
    method Save(p: Path, image: Image) returns (ok: bool)
      modifies this
      ensures ok == (|p| > 0 && Parent(p) in old(dirs))
      ensures dirs == old(dirs)
      ensures files == if ok then old(files)[p := image.View()] else old(files)
    {
      ok := |p| > 0 && Parent(p) in dirs;
      if ok {
        files := files[p := image.View()];
      }
    }
  }
}
