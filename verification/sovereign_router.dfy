/**
 * The router over the eleven Sovereign Monoliths: a page index or an id
 * selects a route, and every route's image paths hang off a base path that
 * callers may reassign.
 */
module SovereignRouting {
  import opened Options
  import opened Lists

  /** A Compose colour; only the default theme colour is named. */
  datatype Color = SovereignTeal | Argb(value: int)

  datatype SovereignRoute = SovereignRoute(id: string, title: string, highFiPath: string, pixelArtPath: string, color: Color)

  /** The fixed part of a route: everything but the base path. */
  datatype Monolith = Monolith(id: string, title: string, highFiFile: string, pixelArtFile: string)

  const DefaultBasePath := "file:///sdcard/Pictures/Screenshots/"

  /** The eleven monoliths, in page order. */
  const Monoliths: seq<Monolith> := [
    Monolith("01", "GENESIS CORE", "brain.png", "IMG_20260128_142126.png"),
    Monolith("02", "TRINITY SYSTEM", "IMG_20260128_141115.png", "IMG_20260128_142126.png"),
    Monolith("03", "AURA'S LAB", "IMG_20260128_140725.png", "IMG_20260128_142213.png"),
    Monolith("04", "AGENT NEXUS", "IMG_20260128_141704.png", "IMG_20260128_142302.png"),
    Monolith("05", "SENTINEL FORTRESS", "IMG_20260128_140949.png", "IMG_20260128_142022.png"),
    Monolith("06", "FIGMA BRIDGE", "IMG_20260128_141018.png", "IMG_20260128_142213.png"),
    Monolith("07", "SECURE NODE", "IMG_20260128_141219.png", "IMG_20260128_142022.png"),
    Monolith("08", "NEXUS SYSTEM", "IMG_20260128_140816.png", "IMG_20260128_142126.png"),
    Monolith("09", "MEMORY CORE", "IMG_20260128_140905.png", "IMG_20260128_142126.png"),
    Monolith("10", "ORACLE DRIVE", "IMG_20260128_141519.png", "IMG_20260128_141949.png"),
    Monolith("11", "DATA VEIN", "IMG_20260128_141756.png", "IMG_20260128_142126.png")
  ]

  /** `"${basePath}<file>"` for both images, with the default colour. */
  function RouteOf(m: Monolith, basePath: string): SovereignRoute {
    SovereignRoute(m.id, m.title, basePath + m.highFiFile, basePath + m.pixelArtFile, SovereignTeal)
  }

  /** `getRoutes()` under a given base path. */
  function RoutesFor(basePath: string): seq<SovereignRoute> {
    seq(|Monoliths|, i requires 0 <= i < |Monoliths| => RouteOf(Monoliths[i], basePath))
  }

  /** The decimal digit `k`. */
  function Digit(k: nat): char
    requires k < 10
  {
    (48 + k) as char
  }

  /** The id of page `n - 1`: `n` written with two decimal digits. */
  function TwoDigit(n: nat): (s: string)
    requires n < 100
    ensures |s| == 2
  {
    [Digit(n / 10), Digit(n % 10)]
  }

  /** Different numbers have different two-digit forms. */
  lemma TwoDigitInjective(a: nat, b: nat)
    requires a < 100 && b < 100 && TwoDigit(a) == TwoDigit(b)
    ensures a == b
  {
    assert TwoDigit(a)[0] == TwoDigit(b)[0] && TwoDigit(a)[1] == TwoDigit(b)[1];
  }

  /** The ids are "01" to "11" in page order. */
  lemma MonolithIds()
    ensures forall p | 0 <= p < |Monoliths| :: Monoliths[p].id == TwoDigit(p + 1)
  {
    assert TwoDigit(1) == "01" && TwoDigit(2) == "02" && TwoDigit(3) == "03" && TwoDigit(4) == "04";
    assert TwoDigit(5) == "05" && TwoDigit(6) == "06" && TwoDigit(7) == "07" && TwoDigit(8) == "08";
    assert TwoDigit(9) == "09" && TwoDigit(10) == "10" && TwoDigit(11) == "11";
  }

  /** Ids are pairwise different, and so are titles. */
  lemma MonolithsDistinct()
    ensures forall i, j | 0 <= i < j < |Monoliths| :: Monoliths[i].id != Monoliths[j].id
    ensures forall i, j | 0 <= i < j < |Monoliths| :: Monoliths[i].title != Monoliths[j].title
  {
    MonolithIds();
    forall i, j | 0 <= i < j < |Monoliths| ensures Monoliths[i].id != Monoliths[j].id {
      if Monoliths[i].id == Monoliths[j].id {
        TwoDigitInjective(i + 1, j + 1);
      }
    }
    forall i, j | 0 <= i < j < |Monoliths| ensures Monoliths[i].title != Monoliths[j].title {
      assert i in {0, 1, 2, 3, 4, 5, 6, 7, 8, 9};
      assert j in {1, 2, 3, 4, 5, 6, 7, 8, 9, 10};
    }
  }

  /**
   * Reassigning the base path changes the image paths and nothing else: the
   * ids, titles, colours and the number of routes stay the same, and the
   * file names after the base path stay the same too.
   */
  lemma BasePathOnlyChangesPaths(base1: string, base2: string)
    ensures |RoutesFor(base1)| == |RoutesFor(base2)| == 11
    ensures forall i | 0 <= i < 11 ::
      && RoutesFor(base1)[i].id == RoutesFor(base2)[i].id
      && RoutesFor(base1)[i].title == RoutesFor(base2)[i].title
      && RoutesFor(base1)[i].color == RoutesFor(base2)[i].color == SovereignTeal
      && RoutesFor(base1)[i].highFiPath[|base1|..] == RoutesFor(base2)[i].highFiPath[|base2|..]
      && RoutesFor(base1)[i].pixelArtPath[|base1|..] == RoutesFor(base2)[i].pixelArtPath[|base2|..]
  {
    forall i | 0 <= i < 11
      ensures RoutesFor(base1)[i].highFiPath[|base1|..] == Monoliths[i].highFiFile
      ensures RoutesFor(base1)[i].pixelArtPath[|base1|..] == Monoliths[i].pixelArtFile
      ensures RoutesFor(base2)[i].highFiPath[|base2|..] == Monoliths[i].highFiFile
      ensures RoutesFor(base2)[i].pixelArtPath[|base2|..] == Monoliths[i].pixelArtFile
    {
    }
  }

  /** The `SovereignRouter` object: one mutable base path, and lookups over the routes built from it. */
  class SovereignRouter {
    var basePath: string

    constructor ()
      ensures basePath == DefaultBasePath
    {
      basePath := DefaultBasePath;
    }

    /** Assigning `basePath`. */
    method SetBasePath(path: string)
      modifies this
      ensures basePath == path
    {
      basePath := path;
    }

    /** `getRoutes()`: the routes under the current base path. */
    function GetRoutes(): (routes: seq<SovereignRoute>)
      reads this
      ensures |routes| == 11
      ensures forall r | r in routes :: basePath <= r.highFiPath && basePath <= r.pixelArtPath
    {
      RoutesFor(basePath)
    }

    /** `getCount()`. */
    function GetCount(): (count: nat)
      reads this
      ensures count == 11
    {
      |GetRoutes()|
    }

    /**
     * `fromPage(page)`: `getOrElse(page) { first() }`. Pages 0 to 10 give the
     * route with id page + 1; every other Int gives the first route.
     */
    function FromPage(page: int): (route: SovereignRoute)
      reads this
      ensures route in GetRoutes()
      ensures 0 <= page < 11 ==> route == GetRoutes()[page] && route.id == TwoDigit(page + 1)
      ensures !(0 <= page < 11) ==> route == GetRoutes()[0] && route.id == "01" && route.title == "GENESIS CORE"
    {
      MonolithIds();
      var routes := GetRoutes();
      if 0 <= page < |routes| then routes[page] else routes[0]
    }

    /** `getById(id)`: the route whose id equals `id` exactly, or null. */
    function GetById(id: string): (route: Option<SovereignRoute>)
      reads this
      ensures route.None? <==> forall i | 0 <= i < 11 :: Monoliths[i].id != id
      ensures route.Some? ==> route.value.id == id && route.value in GetRoutes()
    {
      assert forall i | 0 <= i < 11 :: GetRoutes()[i].id == Monoliths[i].id;
      Find(GetRoutes(), (r: SovereignRoute) => r.id == id)
    }
  }

  /** Looking up the id of any in-range page gives back that page's route. */
  lemma PageIdRoundTrip(router: SovereignRouter, page: int)
    requires 0 <= page < 11
    ensures router.GetById(router.FromPage(page).id) == Some(router.FromPage(page))
  {
    MonolithsDistinct();
    var route := router.FromPage(page);
    var found := router.GetById(route.id);
    var i :| 0 <= i < 11 && router.GetRoutes()[i] == found.value;
    assert Monoliths[i].id == Monoliths[page].id;
  }

  /** Ids must match exactly: the empty string and ids with missing digits, padding or a suffix find nothing. */
  lemma NoMalformedIds(router: SovereignRouter)
    ensures router.GetById("") == None
    ensures router.GetById("1") == None
    ensures router.GetById("01abc") == None
    ensures router.GetById(" 01 ") == None
  {
    MonolithIds();
  }

  /** Two-digit ids outside "01" to "11" find nothing. */
  lemma NoOutOfRangeIds(router: SovereignRouter, n: nat)
    requires n < 100 && !(1 <= n <= 11)
    ensures router.GetById(TwoDigit(n)) == None
  {
    MonolithIds();
    forall i | 0 <= i < 11 ensures Monoliths[i].id != TwoDigit(n) {
      if Monoliths[i].id == TwoDigit(n) {
        TwoDigitInjective(i + 1, n);
      }
    }
  }

  /** For example "99", "00" and "12". */
  lemma NoNearMissIds(router: SovereignRouter)
    ensures router.GetById("99") == None && router.GetById("00") == None && router.GetById("12") == None
  {
    assert TwoDigit(99) == "99" && TwoDigit(0) == "00" && TwoDigit(12) == "12";
    NoOutOfRangeIds(router, 99);
    NoOutOfRangeIds(router, 0);
    NoOutOfRangeIds(router, 12);
  }
}
