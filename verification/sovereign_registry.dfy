/**
 * The registry of the eleven gates: each id maps to a high-fidelity image,
 * a pixel-art image and descriptive text, and one getter selects an image by
 * level.
 */
module SovereignRegistry {
  import opened SovereignRouting
  import opened Lists

  datatype GateInfo = GateInfo(title: string, highFiPath: string, pixelArtPath: string,
                               description: string, agent: string, color: Color)

  const RootDir := "file:///C:/Users/AuraF/StudioProjects/ReGenesis--multi-architectural-70-LDO-/"
  const ScreenshotDir := "file:///C:/Users/AuraF/Pictures/Screenshots/"

  /** `GateInfo(...)` with the default colour. */
  function Info(title: string, highFiPath: string, pixelArtPath: string, description: string, agent: string): GateInfo {
    GateInfo(title, highFiPath, pixelArtPath, description, agent, SovereignTeal)
  }

  /** The pairs of the `Gates` map literal, in order. */
  const GateRows: seq<(string, GateInfo)> := [
    ("01", Info("GENESIS CORE", RootDir + "brain.png", RootDir + "IMG_20260128_142126.png",
                "Nemotron-3-Nano Reasoning / Ethical Governor", "GENESIS")),
    ("02", Info("TRINITY SYSTEM", ScreenshotDir + "IMG_20260128_141115.png", RootDir + "IMG_20260128_142126.png",
                "Agent Fusion State / Shared Collective Memory", "COLLECTIVE")),
    ("03", Info("AURA'S LAB", RootDir + "IMG_20260128_140725.png", RootDir + "IMG_20260128_142213.png",
                "Chroma Core HCT / Blade Elevation Physics", "AURA")),
    ("04", Info("AGENT NEXUS", RootDir + "IMG_20260128_141704.png", RootDir + "IMG_20260128_142302.png",
                "Human-AI Handshake / Google ADK", "BRIDGE")),
    ("05", Info("SENTINEL FORTRESS", ScreenshotDir + "IMG_20260128_140949.png", RootDir + "IMG_20260128_142022.png",
                "Thermal Metabolism / Kernel Shield", "KAI")),
    ("06", Info("FIGMA BRIDGE", RootDir + "IMG_20260128_141018.png", RootDir + "IMG_20260128_142213.png",
                "SVG-to-Compose / Design Token Sync", "AURA")),
    ("07", Info("SECURE NODE", RootDir + "IMG_20260128_141219.png", RootDir + "IMG_20260128_142022.png",
                "YukiHookAPI / Zero-Knowledge Encryption", "KAI")),
    ("08", Info("NEXUS SYSTEM", RootDir + "IMG_20260128_140816.png", RootDir + "IMG_20260128_142126.png",
                "Agent Swarm Event Bus / Priority Queue", "GENESIS")),
    ("09", Info("MEMORY CORE", RootDir + "IMG_20260128_140905.png", RootDir + "IMG_20260128_142126.png",
                "6-Layer Spiritual Chain / Identity Persistence", "COLLECTIVE")),
    ("10", Info("ORACLE DRIVE", RootDir + "IMG_20260128_141519.png", RootDir + "IMG_20260128_141949.png",
                "Native C++ Bridge / Partition R-W Access", "KAI")),
    ("11", Info("DATA VEIN", RootDir + "IMG_20260128_141756.png", RootDir + "IMG_20260128_142126.png",
                "12-Channel Telemetry / Prometheus Glow", "GENESIS"))
  ]

  /** `val Gates = mapOf(...)`. */
  const Gates: map<string, GateInfo> := MapOf(GateRows)

  /** The ids whose high-fidelity image lives in the screenshot directory. */
  const ScreenshotIds: set<string> := {"02", "05"}

  /** Row `i` of the gate table describes monolith `i`: same id, title and file names, under the registry's directories. */
  predicate RowMatches(i: nat)
    requires i < |Monoliths| && i < |GateRows|
  {
    var m, row := Monoliths[i], GateRows[i];
    && row.0 == m.id
    && row.1.title == m.title
    && row.1.pixelArtPath == RootDir + m.pixelArtFile
    && row.1.highFiPath == (if m.id in ScreenshotIds then ScreenshotDir else RootDir) + m.highFiFile
  }

  lemma RowsMatchMonoliths()
    ensures |GateRows| == |Monoliths|
    ensures forall i | 0 <= i < |Monoliths| :: RowMatches(i)
  {
    forall i | 0 <= i < |Monoliths| ensures RowMatches(i) {
      assert i in {0, 1, 2, 3, 4, 5, 6, 7, 8, 9, 10};
    }
  }

  /** The gate table's keys are pairwise different: they are the monolith ids. */
  lemma RowKeysDistinct()
    ensures forall a, b | 0 <= a < b < |GateRows| :: GateRows[a].0 != GateRows[b].0
  {
    RowsMatchMonoliths();
    MonolithsDistinct();
    forall a, b | 0 <= a < b < |GateRows| ensures GateRows[a].0 != GateRows[b].0 {
      assert RowMatches(a) && RowMatches(b);
    }
  }

  /** Every registered id is a monolith id. */
  lemma GateKeys()
    ensures forall id :: id in Gates <==> exists i | 0 <= i < |Monoliths| :: Monoliths[i].id == id
  {
    RowsMatchMonoliths();
    forall id | id in Gates ensures exists i | 0 <= i < |Monoliths| :: Monoliths[i].id == id {
      var row :| row in GateRows && row.0 == id;
      var i :| 0 <= i < |GateRows| && GateRows[i] == row;
      assert RowMatches(i);
    }
    forall i | 0 <= i < |Monoliths| ensures Monoliths[i].id in Gates {
      assert RowMatches(i);
      assert GateRows[i] in GateRows;
    }
  }

  /**
   * The registry covers exactly the router's ids, and each gate has the
   * monolith's title and file names, with every pixel-art image under the
   * root directory and the high-fidelity image under the screenshot
   * directory exactly for "02" and "05".
   */
  lemma GatesMatchMonoliths()
    ensures forall id :: id in Gates <==> exists i | 0 <= i < |Monoliths| :: Monoliths[i].id == id
    ensures forall i | 0 <= i < |Monoliths| :: GateMatches(i)
  {
    GateKeys();
    forall i | 0 <= i < |Monoliths| ensures GateMatches(i) {
      GateOfMonolith(i);
    }
  }

  /** The gate registered under monolith `i`'s id describes that monolith. */
  predicate GateMatches(i: nat)
    requires i < |Monoliths|
  {
    var m := Monoliths[i];
    && m.id in Gates
    && Gates[m.id].title == m.title
    && Gates[m.id].pixelArtPath == RootDir + m.pixelArtFile
    && Gates[m.id].highFiPath == (if m.id in ScreenshotIds then ScreenshotDir else RootDir) + m.highFiFile
  }

  lemma GateOfMonolith(i: nat)
    requires i < |Monoliths|
    ensures GateMatches(i)
  {
    RowsMatchMonoliths();
    RowKeysDistinct();
    MapOfLookup(GateRows, i);
    assert RowMatches(i);
  }

  /** Both paths of a registered gate start with a directory, so neither is empty. */
  lemma GatePathsNonEmpty(id: string)
    requires id in Gates
    ensures |Gates[id].highFiPath| > 0 && |Gates[id].pixelArtPath| > 0
  {
    GateKeys();
    var i :| 0 <= i < |Monoliths| && Monoliths[i].id == id;
    GateOfMonolith(i);
  }

  /**
   * `getAsset(id, level)`: "" for an unknown id; otherwise the high-fidelity
   * path at level 1 (the default) and the pixel-art path at every other level.
   */
  function GetAsset(id: string, level: int := 1): (path: string)
    ensures path == "" <==> id !in Gates
    ensures id in Gates ==> path == if level == 1 then Gates[id].highFiPath else Gates[id].pixelArtPath
  {
    if id !in Gates then "" else
    GatePathsNonEmpty(id);
    var gate := Gates[id];
    if level == 1 then gate.highFiPath else gate.pixelArtPath
  }

  /**
   * A known id always yields a path under one of the two directories: the
   * pixel art is always under the root directory, and only "02" and "05" at
   * level 1 point into the screenshot directory.
   */
  lemma AssetDirectories(id: string, level: int)
    requires id in Gates
    ensures level != 1 ==> RootDir <= GetAsset(id, level)
    ensures level == 1 && id in ScreenshotIds ==> ScreenshotDir <= GetAsset(id, level)
    ensures level == 1 && id !in ScreenshotIds ==> RootDir <= GetAsset(id, level)
  {
    GateKeys();
    var i :| 0 <= i < |Monoliths| && Monoliths[i].id == id;
    GateOfMonolith(i);
  }
}
