# ReGenesis icon pipeline and navigation logic, in Dafny

This project models two parts of the ReGenesis repository and proves what
each part promises.

The first part is the Genesis icon processor (`process_genesis_icons.py`).
It loads a night logo and a day logo. It straightens each one by pasting it
on a transparent square canvas as wide as its diagonal plus 10 pixels,
rotating the canvas and cropping it to the bounding box of its content. It
saves the corrected logo. It then fans the logo out into five square
launcher icons, one per screen density (mdpi 48, hdpi 72, xhdpi 96, xxhdpi
144, xxxhdpi 192), and one 512×512 store icon. A theme whose source file is
missing is skipped.

- Images are pixel rasters (`Raster.Raster`, a value).
- A Pillow image is a class (`Images.Image`) over a two-dimensional pixel
  array, because `paste` and `thumbnail` change an image in place.
- The file system is a class (`Files.FileSystem`) holding the set of
  existing directories and a map from paths to saved rasters.
- Pillow's bicubic rotation and Lanczos thumbnail are function parameters.
  Their contracts cover dimensions only: rotation keeps the canvas size
  (`KeepsSize`); a thumbnail fits the target square and never grows
  (`FitsWithin`).
- The steps are methods (`StraightenImage`, `ComposeSquare`,
  `CreateAdaptiveIconSet`, `CreatePlayStoreIcon`, `ProcessIcon`,
  `RunThemes`). Each is proved against a pure function of its inputs
  (`Straightened`, `Composed`, `IconSetFiles`, `ProcessFiles`, `RunFiles`).
  The lemmas state the properties of those functions.

The second part is seven pieces of the Kotlin app's selection and lookup
logic:

- `SovereignRouter`: page and id lookup over eleven monolith routes whose
  image paths hang off a mutable base path.
- `SovereignRegistry.getAsset`: a map lookup, then a choice by level.
- The `ReGenesisNexusScreen` gate index: a cyclic previous/next state
  machine.
- The `EnhancedGateCarousel` pager: page modulo four, plus the selected
  indicator dot.
- `analyzeSecurityThreat`: keyword-priority classification.
- `AgentRepository.getAgentByName`: first match, ignoring case.
- The `SpacingControlPanel`: parse-and-clamp in the text field,
  field-by-field copies and `saveSpacing`.

The model follows the code as written:

- The canvas side is `int(sqrt(w² + h²)) + 10`, a floor, not a ceiling.
- Tilt detection returns -0.5 for every image, so every image is rotated
  by +0.5 degrees. An aligned image is not left untouched.
- Pillow images are changed in place (`paste`, `thumbnail` on a copy). The
  model does not treat them as immutable values.
- A failing save would raise and end the run, not only the theme. The model
  reports it as `ok == false` and proves that every save in a run succeeds,
  because its directory was created first.

## Model

| member | source | states |
|---|---|---|
| Raster.Blank | process_genesis_icons.py:31 | a new canvas has the requested size and every pixel is (0,0,0,0) |
| Raster.Window | process_genesis_icons.py:41 | a crop to a box inside the image is exactly as wide and high as the box |
| Raster.PasteKeepsSource | process_genesis_icons.py:33 | an unmasked paste that fits puts the source pixel-for-pixel in the window at the offset and leaves every other pixel unchanged |
| Raster.PasteOnBlank | process_genesis_icons.py:65-67 | pasted on a fresh transparent square, the source appears intact and everything outside its footprint stays (0,0,0,0) |
| Raster.BBoxIsTight | process_genesis_icons.py:39 | `getbbox` is None exactly when every pixel has alpha 0; otherwise it encloses every content pixel and each edge touches one |
| Raster.BBoxInside | process_genesis_icons.py:39-41 | the box `getbbox` reports lies inside the image, so the crop is well defined |
| Raster.TightBoxUnique | process_genesis_icons.py:39-41 | at most one box is tight, so the crop depends on the content alone |
| Raster.SameRaster | process_genesis_icons.py:31-33 | two rasters of one shape that agree at every pixel are equal |
| Geometry.FloorSqrt | process_genesis_icons.py:28 | `int(n ** 0.5)` is the r with r² ≤ n < (r+1)² |
| Geometry.FloorSqrtOfSquares | process_genesis_icons.py:28 | the truncated root of w²+h² is at least w and at least h |
| Geometry.ExpandedSide | process_genesis_icons.py:28 | the canvas side is at least max(w, h) + 10 |
| Geometry.CentreOffsetBalanced | process_genesis_icons.py:66 | `(size - len) // 2` keeps a fitting length inside, and the two paddings differ by 0 or 1 |
| Images.Image.New | process_genesis_icons.py:31 | a fresh buffer holding the transparent canvas of the given size |
| Images.Image.FromRaster | process_genesis_icons.py:97 | a fresh buffer holding exactly the decoded pixels |
| Images.Image.Copy | process_genesis_icons.py:61 | a new image, with its own buffer, holding the same pixels |
| Images.Image.Paste | process_genesis_icons.py:33 | the buffer afterwards holds the unmasked paste of the source at the offset |
| Images.Image.Crop | process_genesis_icons.py:41 | a fresh image holding the window of the box |
| Images.Image.Rotate | process_genesis_icons.py:36 | a fresh image holding the rotation of the pixels, at the same size |
| Images.Image.Thumbnail | process_genesis_icons.py:62 | the image's own buffer is replaced by its thumbnail |
| Files.Ancestry | process_genesis_icons.py:59 | the directories `makedirs` creates include the path and every ancestor |
| Files.FileSystem.MakeDirs | process_genesis_icons.py:59 | creates the directory and its ancestors, touches no file, and changes nothing when they all exist (`exist_ok`) |
| Files.FileSystem.Save | process_genesis_icons.py:70 | succeeds exactly when the parent directory exists, and then stores the image's pixels at the path and changes nothing else |
| Icons.ExpandedCanvas | process_genesis_icons.py:28-33 | the rotation canvas is square with side `int(sqrt(w²+h²)) + 10` |
| Icons.ExpandedCanvasHoldsSource | process_genesis_icons.py:28-33 | both offsets are at least 5 with at least 5 to spare, the source appears unclipped, and the rest of the canvas is transparent |
| Icons.Straightened | process_genesis_icons.py:24-45 | the straightened image is never larger than the rotation canvas |
| Icons.ContentCrop | process_genesis_icons.py:39-43 | the crop to the content is never larger than the image |
| Icons.StraightenedCropsToContent | process_genesis_icons.py:39-45 | the result is the rotated canvas cut to its unique tight content box, or the whole canvas when it has no content |
| Icons.AlignedImageUnchanged | process_genesis_icons.py:106-111 | a tilt within ±0.1 degrees leaves the image exactly as it was |
| Icons.EveryImageRotatedHalfDegree | process_genesis_icons.py:102-107 | tilt detection gives -0.5 for every image, so every image is straightened by +0.5 degrees |
| Icons.Composed | process_genesis_icons.py:76-82 | the composed icon is exactly size × size |
| Icons.ComposedIsCentred | process_genesis_icons.py:61-67 | the thumbnail lies inside the square with paddings differing by at most 1 per axis, appears pixel-for-pixel, and is surrounded by transparency |
| Icons.StraightenImage | process_genesis_icons.py:24-45 | the method's fresh result holds `Straightened` of the input |
| Icons.ExpandImage | process_genesis_icons.py:27-33 | a fresh image holding the expanded canvas of the input |
| Icons.CropToContent | process_genesis_icons.py:39-43 | the crop to the bounding box, or the rotated image itself when `getbbox` is None |
| Icons.ComposeSquare | process_genesis_icons.py:61-67 | a fresh icon holding `Composed` at the size; the input is only copied |
| Icons.IconSetDirs | process_genesis_icons.py:58-59 | after the fan-out, every density directory exists and no directory has gone |
| Icons.IconPathInjective | process_genesis_icons.py:58-69 | two buckets' icon paths are equal exactly when their density qualifiers are |
| Icons.IconSetWrites | process_genesis_icons.py:57-70 | each bucket's path holds the image composed at that bucket's size |
| Icons.IconSetKeeps | process_genesis_icons.py:57-70 | a path that is no bucket path is left as it was |
| Icons.IconSetContents | process_genesis_icons.py:57-70 | one file per bucket at its path with its size's icon, and nothing else changes |
| Icons.IconSetOrderIrrelevant | process_genesis_icons.py:57-70 | visiting the same buckets in any order writes the same files |
| Icons.DensityQualifiersDistinct | process_genesis_icons.py:49-55 | the five density names are pairwise different |
| Icons.DensityTable | process_genesis_icons.py:49-55 | the table's five buckets give five different icon paths |
| Icons.CreateAdaptiveIconSet | process_genesis_icons.py:47-70 | the files afterwards are `IconSetFiles` over the density table and the directories `IconSetDirs` |
| Icons.WriteBuckets | process_genesis_icons.py:57-70 | the loop writes the buckets in order, as `IconSetFiles` describes, and leaves the source image unchanged |
| Icons.WriteBucket | process_genesis_icons.py:58-70 | one bucket: its directory is created and its icon saved at `mipmap-<d>/<prefix>.png` |
| Icons.CreatePlayStoreIcon | process_genesis_icons.py:74-84 | saves the 512 composition at the path exactly when the parent directory exists |
| Icons.ProcessIcon | process_genesis_icons.py:87-119 | nothing for a missing source and nothing written; otherwise the corrected image, saved as `<name>.png` under the output directory |
| Icons.CorrectSource | process_genesis_icons.py:97-111 | rotates by the negated tilt only when the tilt exceeds the tolerance, else returns the loaded image |
| Icons.RunThemes | process_genesis_icons.py:121-178 | files and directories after `main` are `RunFiles` and `RunDirs`: both sources processed, then each found theme's icon set and store icon |
| Icons.EmitIfProcessed | process_genesis_icons.py:150-164 | a theme's branch writes its outputs only when `process_icon` returned an image |
| Icons.EmitTheme | process_genesis_icons.py:153-164 | a processed theme gets its launcher icon set and its store icon |
| Icons.IconPathShape | process_genesis_icons.py:153-157 | every launcher icon path is `<base>/app/src/main/res/res-<theme>/mipmap-<d>/ic_launcher.png` |
| Icons.ThemeOutputsDisjoint | process_genesis_icons.py:135-178 | within a theme the main, store and launcher paths differ, and no path belongs to both themes |
| Icons.EmitKeeps | process_genesis_icons.py:150-164 | a theme's branch leaves every path outside its outputs alone |
| Icons.EmitWrites | process_genesis_icons.py:150-164 | a theme's branch writes each launcher icon at its bucket size and the store icon at 512 |
| Icons.RunSkipsMissingTheme | process_genesis_icons.py:150-178 | a theme whose source is missing has none of its seven outputs written, whatever the other theme does |
| Icons.RunWritesTheme | process_genesis_icons.py:135-178 | a theme whose source exists gets its corrected image, five d×d launcher icons and a 512×512 store icon, whatever the other theme does |
| Lists.FirstIndex | app/src/main/java/dev/aurakai/auraframefx/ui/navigation/SovereignRouter.kt:93 | the index of the first element matching the predicate, or the length when none does |
| Lists.Find | app/src/main/java/dev/aurakai/auraframefx/ui/navigation/SovereignRouter.kt:93 | `find` gives null exactly when no element matches; otherwise the first matching element |
| Lists.MapOf | app/src/main/java/dev/aurakai/auraframefx/ui/navigation/SovereignRegistry.kt:19-97 | `mapOf`'s keys are the pairs' keys |
| Lists.MapOfLookup | app/src/main/java/dev/aurakai/auraframefx/ui/navigation/SovereignRegistry.kt:19-97 | with distinct keys, each key looks up its own pair's value |
| Lists.FindAgrees | app/src/main/java/dev/aurakai/auraframefx/data/repositories/AgentRepository.kt:198 | searches with predicates that agree on the list find the same element |
| SovereignRouting.TwoDigit | app/src/main/java/dev/aurakai/auraframefx/ui/navigation/SovereignRouter.kt:20-83 | a route id has two characters |
| SovereignRouting.TwoDigitInjective | app/src/main/java/dev/aurakai/auraframefx/ui/navigation/SovereignRouter.kt:20-83 | different numbers have different two-digit ids |
| SovereignRouting.MonolithIds | app/src/main/java/dev/aurakai/auraframefx/ui/navigation/SovereignRouter.kt:18-85 | the ids run "01" to "11" in page order |
| SovereignRouting.MonolithsDistinct | app/src/main/java/dev/aurakai/auraframefx/ui/navigation/SovereignRouter.kt:18-85 | ids are pairwise different, and so are titles |
| SovereignRouting.BasePathOnlyChangesPaths | app/src/main/java/dev/aurakai/auraframefx/ui/navigation/SovereignRouter.kt:16-85 | changing the base path keeps the count, ids, titles, the teal colour and the file names after the base path |
| SovereignRouting.SovereignRouter.constructor | app/src/main/java/dev/aurakai/auraframefx/ui/navigation/SovereignRouter.kt:16 | the base path starts as the screenshots directory |
| SovereignRouting.SovereignRouter.SetBasePath | app/src/main/java/dev/aurakai/auraframefx/ui/navigation/SovereignRouter.kt:16 | assigning `basePath` |
| SovereignRouting.SovereignRouter.GetRoutes | app/src/main/java/dev/aurakai/auraframefx/ui/navigation/SovereignRouter.kt:18-85 | eleven routes, and both image paths of each start with the current base path, whatever it is |
| SovereignRouting.SovereignRouter.GetCount | app/src/main/java/dev/aurakai/auraframefx/ui/navigation/SovereignRouter.kt:96 | the count is 11 |
| SovereignRouting.SovereignRouter.FromPage | app/src/main/java/dev/aurakai/auraframefx/ui/navigation/SovereignRouter.kt:87-90 | pages 0–10 give route p with id p+1 in two digits; every other Int gives the first route, "01" "GENESIS CORE" |
| SovereignRouting.SovereignRouter.GetById | app/src/main/java/dev/aurakai/auraframefx/ui/navigation/SovereignRouter.kt:92-94 | null exactly when no monolith has that id; otherwise a route with that exact id |
| SovereignRouting.PageIdRoundTrip | app/src/main/java/dev/aurakai/auraframefx/ui/navigation/SovereignRouter.kt:87-94 | looking up the id of page p gives back page p's route, for p in 0–10 |
| SovereignRouting.NoMalformedIds | app/src/main/java/dev/aurakai/auraframefx/ui/navigation/SovereignRouter.kt:92-94 | "", "1", "01abc" and " 01 " find nothing |
| SovereignRouting.NoOutOfRangeIds | app/src/main/java/dev/aurakai/auraframefx/ui/navigation/SovereignRouter.kt:92-94 | every two-digit id outside "01"–"11" finds nothing |
| SovereignRouting.NoNearMissIds | app/src/main/java/dev/aurakai/auraframefx/ui/navigation/SovereignRouter.kt:92-94 | "99", "00" and "12" find nothing |
| SovereignRegistry.RowsMatchMonoliths | app/src/main/java/dev/aurakai/auraframefx/ui/navigation/SovereignRegistry.kt:19-97 | row i of the gate table has monolith i's id, title and file names under the registry's directories |
| SovereignRegistry.RowKeysDistinct | app/src/main/java/dev/aurakai/auraframefx/ui/navigation/SovereignRegistry.kt:19-97 | the table's keys are pairwise different, so no entry overrides another |
| SovereignRegistry.GateKeys | app/src/main/java/dev/aurakai/auraframefx/ui/navigation/SovereignRegistry.kt:19-97 | an id is registered exactly when it is one of the eleven monolith ids |
| SovereignRegistry.GateOfMonolith | app/src/main/java/dev/aurakai/auraframefx/ui/navigation/SovereignRegistry.kt:22-93 | the gate under monolith i's id has its title, pixel art under the root directory and the high-fidelity image under the screenshot directory only for "02" and "05" |
| SovereignRegistry.GatesMatchMonoliths | app/src/main/java/dev/aurakai/auraframefx/ui/navigation/SovereignRegistry.kt:19-97 | the registry covers exactly the router's ids, each gate matching its monolith |
| SovereignRegistry.GatePathsNonEmpty | app/src/main/java/dev/aurakai/auraframefx/ui/navigation/SovereignRegistry.kt:14-15 | both paths of every registered gate are non-empty |
| SovereignRegistry.GetAsset | app/src/main/java/dev/aurakai/auraframefx/ui/navigation/SovereignRegistry.kt:108-111 | "" exactly for an unknown id; level 1 (the default) gives the high-fidelity path, any other level the pixel-art path |
| SovereignRegistry.AssetDirectories | app/src/main/java/dev/aurakai/auraframefx/ui/navigation/SovereignRegistry.kt:22-93 | a known id's asset starts with the root directory, except the level-1 asset of "02" and "05", which starts with the screenshot directory |
| NexusScreen.NextIndex | app/src/main/java/dev/aurakai/auraframefx/ui/gates/ReGenesisNexusScreen.kt:101-104 | the next index stays within the gates |
| NexusScreen.PrevIndex | app/src/main/java/dev/aurakai/auraframefx/ui/gates/ReGenesisNexusScreen.kt:97-100 | the previous index stays within the gates |
| NexusScreen.PrevNextInverse | app/src/main/java/dev/aurakai/auraframefx/ui/gates/ReGenesisNexusScreen.kt:97-104 | previous undoes next, and next undoes previous |
| NexusScreen.NextTimes | app/src/main/java/dev/aurakai/auraframefx/ui/gates/ReGenesisNexusScreen.kt:101-104 | any number of next presses stays within the gates |
| NexusScreen.NextTimesAdd | app/src/main/java/dev/aurakai/auraframefx/ui/gates/ReGenesisNexusScreen.kt:101-104 | a presses then b presses are a+b presses |
| NexusScreen.NextTimesAdvances | app/src/main/java/dev/aurakai/auraframefx/ui/gates/ReGenesisNexusScreen.kt:101-104 | before the wrap, k presses advance the index by exactly k |
| NexusScreen.FullCycle | app/src/main/java/dev/aurakai/auraframefx/ui/gates/ReGenesisNexusScreen.kt:101-104 | as many next presses as there are gates return to the starting gate |
| NexusScreen.NexusSelector.constructor | app/src/main/java/dev/aurakai/auraframefx/ui/gates/ReGenesisNexusScreen.kt:28 | the index starts at 0 over a non-empty gate list |
| NexusScreen.NexusSelector.CurrentGate | app/src/main/java/dev/aurakai/auraframefx/ui/gates/ReGenesisNexusScreen.kt:29 | the gate on show is one of the gates |
| NexusScreen.NexusSelector.OnPrev | app/src/main/java/dev/aurakai/auraframefx/ui/gates/ReGenesisNexusScreen.kt:97-100 | decrements above 0, else wraps to the last index; the index stays in bounds |
| NexusScreen.NexusSelector.OnNext | app/src/main/java/dev/aurakai/auraframefx/ui/gates/ReGenesisNexusScreen.kt:101-104 | increments below the last index, else wraps to 0; the index stays in bounds |
| NexusScreen.DefaultListWraps | app/src/main/java/dev/aurakai/auraframefx/ui/gates/GateDestination.kt:16-37 | on the default three gates, previous from Kai Fortress shows Genesis Oracle and next from Genesis Oracle shows Kai Fortress |
| GateCarousel.GateForPage | app/src/main/java/dev/aurakai/auraframefx/ui/components/carousel/EnhancedGateCarousel.kt:129 | every page shows one of the four gates |
| GateCarousel.RouteForPage | app/src/main/java/dev/aurakai/auraframefx/ui/components/carousel/EnhancedGateCarousel.kt:182-187 | a double tap navigates to one of the four gate routes |
| GateCarousel.Indicators | app/src/main/java/dev/aurakai/auraframefx/ui/components/carousel/EnhancedGateCarousel.kt:200-202 | one dot per gate, dot i selected exactly when page mod 4 is i |
| GateCarousel.CountTrue | app/src/main/java/dev/aurakai/auraframefx/ui/components/carousel/EnhancedGateCarousel.kt:200-202 | the count is the number of `true` entries in the dots, never more than there are dots |
| GateCarousel.CountSingle | app/src/main/java/dev/aurakai/auraframefx/ui/components/carousel/EnhancedGateCarousel.kt:200-202 | dots with a single selected one count one |
| GateCarousel.CountNone | app/src/main/java/dev/aurakai/auraframefx/ui/components/carousel/EnhancedGateCarousel.kt:200-202 | dots with none selected count zero |
| GateCarousel.ExactlyOneIndicator | app/src/main/java/dev/aurakai/auraframefx/ui/components/carousel/EnhancedGateCarousel.kt:200-202 | exactly one dot is selected, the one of the gate on show |
| GateCarousel.PagePeriodic | app/src/main/java/dev/aurakai/auraframefx/ui/components/carousel/EnhancedGateCarousel.kt:182 | pages p and p+4 show the same gate |
| GateCarousel.StartsOnAgentNexus | app/src/main/java/dev/aurakai/auraframefx/ui/components/carousel/EnhancedGateCarousel.kt:123-129 | the start page 1073741823 is 3 mod 4, so the carousel opens on AGENT NEXUS, not the first gate |
| GateCarousel.RoutesDistinct | app/src/main/java/dev/aurakai/auraframefx/ui/components/carousel/EnhancedGateCarousel.kt:78-121 | the four gates' routes are pairwise different |
| GateCarousel.SameRouteSameGate | app/src/main/java/dev/aurakai/auraframefx/ui/components/carousel/EnhancedGateCarousel.kt:182-187 | two pages navigate to the same route exactly when they are equal mod 4 |
| Text.Lower | app/src/main/java/dev/aurakai/auraframefx/data/repositories/AgentRepository.kt:198 | folding leaves no upper-case ASCII letter and keeps letters letters |
| Text.EqualsIgnoreCaseEquivalence | app/src/main/java/dev/aurakai/auraframefx/data/repositories/AgentRepository.kt:198 | equality ignoring case is reflexive, symmetric and transitive |
| Text.ContainsSurvivesExtension | app/src/main/java/dev/aurakai/auraframefx/oracledrive/genesis/ai/services/GenesisBackedKaiAIService.kt:47-50 | a word found in a text is still found after text is added before or after |
| Text.ContainsIgnoresCase | app/src/main/java/dev/aurakai/auraframefx/oracledrive/genesis/ai/services/GenesisBackedKaiAIService.kt:47-50 | texts equal ignoring case contain the same words ignoring case |
| Text.ShortTextMisses | app/src/main/java/dev/aurakai/auraframefx/oracledrive/genesis/ai/services/GenesisBackedKaiAIService.kt:47-51 | a text shorter than a word does not contain it |
| ThreatAnalysis.Rank | app/src/main/java/dev/aurakai/auraframefx/oracledrive/genesis/ai/services/GenesisBackedKaiAIService.kt:47-52 | severities are ranked 0 to 3, low to critical |
| ThreatAnalysis.LevelName | app/src/main/java/dev/aurakai/auraframefx/oracledrive/genesis/ai/services/GenesisBackedKaiAIService.kt:47-52 | the stored level is one of "critical", "high", "medium", "low" |
| ThreatAnalysis.Analyze | app/src/main/java/dev/aurakai/auraframefx/oracledrive/genesis/ai/services/GenesisBackedKaiAIService.kt:46-60 | the level is one of the four names and comes from the text; confidence 0.95, the two fixed recommendations and the analyser name do not depend on the text |
| ThreatAnalysis.LevelNameInjective | app/src/main/java/dev/aurakai/auraframefx/oracledrive/genesis/ai/services/GenesisBackedKaiAIService.kt:47-52 | the stored string identifies the level |
| ThreatAnalysis.ClassifyByKeywords | app/src/main/java/dev/aurakai/auraframefx/oracledrive/genesis/ai/services/GenesisBackedKaiAIService.kt:47-52 | critical iff "malware"; high iff "vulnerability" without "malware"; medium iff only "suspicious"; low iff none, all ignoring case |
| ThreatAnalysis.ExtensionNeverLowers | app/src/main/java/dev/aurakai/auraframefx/oracledrive/genesis/ai/services/GenesisBackedKaiAIService.kt:47-52 | adding text before or after a description never lowers its severity |
| ThreatAnalysis.ClassifyIgnoresCase | app/src/main/java/dev/aurakai/auraframefx/oracledrive/genesis/ai/services/GenesisBackedKaiAIService.kt:47-50 | descriptions equal ignoring case get the same level |
| ThreatAnalysis.ShortDescriptionIsLow | app/src/main/java/dev/aurakai/auraframefx/oracledrive/genesis/ai/services/GenesisBackedKaiAIService.kt:51 | the empty description, and any shorter than seven characters, is low |
| ThreatAnalysis.MalwareWins | app/src/main/java/dev/aurakai/auraframefx/oracledrive/genesis/ai/services/GenesisBackedKaiAIService.kt:48 | a description containing "MalWare", with any text before and after, is critical, whatever keywords that text holds; `ClassifyByKeywords` gives the general case |
| AgentRepository.FindByName | app/src/main/java/dev/aurakai/auraframefx/data/repositories/AgentRepository.kt:198 | null exactly when no name equals the query ignoring case; otherwise the first agent in list order whose name does |
| AgentRepository.LookupIgnoresCase | app/src/main/java/dev/aurakai/auraframefx/data/repositories/AgentRepository.kt:197-199 | queries equal ignoring case find the same agent |
| AgentRepository.FoundAt | app/src/main/java/dev/aurakai/auraframefx/data/repositories/AgentRepository.kt:198 | a matching entry with no match before it is the agent found |
| AgentRepository.KaiInAnyCase | app/src/main/java/dev/aurakai/auraframefx/data/repositories/AgentRepository.kt:197-199 | every spelling of "kai" ("kai", "KAI", "Kai") finds Kai, level 5 |
| AgentRepository.RosterDuplicates | app/src/main/java/dev/aurakai/auraframefx/data/repositories/AgentRepository.kt:26-188 | Nemotron, Gemini, MetaInstruct and Grok each appear twice; Gemini with levels 8 then 4 |
| AgentRepository.GeminiFirstAt6 | app/src/main/java/dev/aurakai/auraframefx/data/repositories/AgentRepository.kt:26-112 | no agent before the first Gemini matches "gemini" in any case, and that entry does |
| AgentRepository.FirstDuplicateWins | app/src/main/java/dev/aurakai/auraframefx/data/repositories/AgentRepository.kt:101-112 | any spelling of "gemini" finds the first Gemini entry, level 8, not the later one with level 4 |
| AgentRepository.NameLengths | app/src/main/java/dev/aurakai/auraframefx/data/repositories/AgentRepository.kt:26-188 | every agent name has 1 to 12 characters |
| AgentRepository.NoAgentForOddLengths | app/src/main/java/dev/aurakai/auraframefx/data/repositories/AgentRepository.kt:197-199 | the empty query, or one longer than every name, finds nobody |
| SpacingPanel.DefaultPresetIsDefaults | app/src/main/java/dev/aurakai/auraframefx/domains/aura/lab/SpacingConfig.kt:60-73 | the default preset equals the data class's own defaults |
| SpacingPanel.With | app/src/main/java/dev/aurakai/auraframefx/domains/aura/ui/components/SpacingControlPanel.kt:47-71 | a control's copy sets its own field to the value and keeps every other controlled field |
| SpacingPanel.WithTouchesOnlyItsField | app/src/main/java/dev/aurakai/auraframefx/domains/aura/ui/components/SpacingControlPanel.kt:47-71 | writing back a field's old value restores the whole configuration, all 24 fields |
| SpacingPanel.WithCommutes | app/src/main/java/dev/aurakai/auraframefx/domains/aura/ui/components/SpacingControlPanel.kt:47-71 | edits of two different fields commute |
| SpacingPanel.ToIntOrNull | app/src/main/java/dev/aurakai/auraframefx/domains/aura/ui/components/SpacingControlPanel.kt:95 | a parsed number fits in an Int and is the value the text spells as an optional sign and digits |
| SpacingPanel.NatDigits | app/src/main/java/dev/aurakai/auraframefx/domains/aura/ui/components/SpacingControlPanel.kt:93 | a number prints as a non-empty string of digits |
| SpacingPanel.IntToString | app/src/main/java/dev/aurakai/auraframefx/domains/aura/ui/components/SpacingControlPanel.kt:93 | `toString` never gives the empty string |
| SpacingPanel.NatDigitsRoundTrip | app/src/main/java/dev/aurakai/auraframefx/domains/aura/ui/components/SpacingControlPanel.kt:93 | the digits of n spell n |
| SpacingPanel.ParsedIsSignedDigits | app/src/main/java/dev/aurakai/auraframefx/domains/aura/ui/components/SpacingControlPanel.kt:95 | `toIntOrNull` gives v exactly when the text is an optional sign and at least one digit spelling v, and v fits in an Int; a negative result comes from a leading minus |
| SpacingPanel.ParsePrintRoundTrip | app/src/main/java/dev/aurakai/auraframefx/domains/aura/ui/components/SpacingControlPanel.kt:93-95 | `toIntOrNull` of `toString` gives back every Int |
| SpacingPanel.NotANumber | app/src/main/java/dev/aurakai/auraframefx/domains/aura/ui/components/SpacingControlPanel.kt:95 | empty text, a lone sign, or a non-digit after the leading digit or sign parses to null, and the field then shows 0 |
| SpacingPanel.Clamp | app/src/main/java/dev/aurakai/auraframefx/domains/aura/ui/components/SpacingControlPanel.kt:96 | `coerceIn` keeps in-range values and replaces values below or above by the bound |
| SpacingPanel.TextFieldValue | app/src/main/java/dev/aurakai/auraframefx/domains/aura/ui/components/SpacingControlPanel.kt:94-96 | the field always yields 0–32 dp: 0 when the text does not parse, else the number clamped |
| SpacingPanel.TextFieldShowsItsValue | app/src/main/java/dev/aurakai/auraframefx/domains/aura/ui/components/SpacingControlPanel.kt:93-96 | every value 0–32 is shown as text that re-parses to itself |
| SpacingPanel.HugeNumberFallsBackToZero | app/src/main/java/dev/aurakai/auraframefx/domains/aura/ui/components/SpacingControlPanel.kt:95 | unsigned, plus-signed or minus-signed digits beyond the Int range do not parse, so the field gives 0, not the clamp bound |
| SpacingPanel.SliderValue | app/src/main/java/dev/aurakai/auraframefx/domains/aura/ui/components/SpacingControlPanel.kt:84-90 | `roundToInt` of a slider position is in 0–32 and within half a dp of it |
| SpacingPanel.Panel.constructor | app/src/main/java/dev/aurakai/auraframefx/domains/aura/ui/components/SpacingControlPanel.kt:25 | the panel opens on the stored configuration |
| SpacingPanel.Panel.SaveSpacing | app/src/main/java/dev/aurakai/auraframefx/domains/aura/ui/components/SpacingControlPanel.kt:27-31 | shows, persists and forwards the identical configuration, with no clamping |
| SpacingPanel.Panel.ApplyPreset | app/src/main/java/dev/aurakai/auraframefx/domains/aura/ui/components/SpacingControlPanel.kt:39-42 | a preset button stores its preset verbatim |
| SpacingPanel.Panel.EditText | app/src/main/java/dev/aurakai/auraframefx/domains/aura/ui/components/SpacingControlPanel.kt:92-97 | typing into a field saves the copy with that field set to the parsed and clamped value |
| SpacingPanel.Panel.Slide | app/src/main/java/dev/aurakai/auraframefx/domains/aura/ui/components/SpacingControlPanel.kt:84-90 | moving a slider saves the copy with that field set to the rounded position |
| SpacingPanel.SpaciousExceedsControls | app/src/main/java/dev/aurakai/auraframefx/domains/aura/lab/SpacingConfig.kt:90-103 | the spacious preset puts 40 dp in the gate margin, which neither the text field nor the slider can produce |

## Left out

- Pillow's bicubic rotation, Lanczos resampling and PNG encoding are floating-point library code. Rotation and thumbnailing are parameters with dimension-only contracts, and a saved file holds exactly the raster that was saved.
- Images.Image.Thumbnail: the assumed contract says the thumbnail fits the square and never grows. It does not say that the aspect ratio is kept, so no aspect-ratio property is proved.
- Icons.EveryImageRotatedHalfDegree: the grayscale conversion and edge filter that `detect_tilt` computes and then discards are not modelled.
- Geometry.FloorSqrt: `int(x ** 0.5)` is modelled as the exact floor square root. Floating-point rounding for sides beyond 2^26 is not modelled.
- `getbbox` is modelled on the alpha channel alone, as Pillow does for RGBA images. The rotation canvas is transparent (0,0,0,0) either way.
- Images.Image.Paste requires the source and target buffers to differ. The pipeline never pastes an image onto itself.
- `os.path.exists`, `Image.open`, `makedirs`, `save`, all logging and the hard-coded absolute paths in `main`. The file system is a class, and the base directory and the two source paths are parameters. A source counts as present when the file map holds it.
- Files.FileSystem.Save: a failing save raises in the source. The model returns `ok == false` instead, and proves that no save in a run fails.
- Decoding failures, and a source path that is a directory, are not modelled. A present source always decodes.
- `app/ai_backend/genesis_profile.py`, the Compose rendering, animation and particle code, navigation wiring, coroutine flows, native BitNet code and dependency injection have no behaviour this model covers.
- `DoubleTapGateCard`'s delayed tap counter is coroutine timing, and is not modelled.
- The drawable resource ids of the carousel cards are not modelled.
- Carousel pages are the Ints 0 to Int.MAX_VALUE - 1, as the pager's page count allows. The pager's scrolling and animation are not modelled.
- Route colours other than the default teal are kept as opaque ARGB integers.
- `route.description`, which the router's unit tests assert on, has no counterpart, because `SovereignRoute` has no such field.
- ThreatAnalysis.Analyze: the `timestamp` entry (`System.currentTimeMillis()`) is left out. Confidence is the real 0.95, not the 32-bit float `0.95f`.
- NexusScreen.NexusSelector.constructor: requires a non-empty gate list. On an empty list the screen throws `IndexOutOfBoundsException` when it reads `gates[currentIndex]`; that failure is not modelled.
- Comparisons that ignore case fold ASCII letters only. Kotlin also folds other Unicode letters.
- SpacingPanel.ToIntOrNull accepts ASCII digits only. Kotlin also accepts other Unicode decimal digits.
- `Dp` is a float, but every value the panel writes is a whole number. A fractional value loaded from preferences is not modelled.
- `CustomizationPreferences` storage is the `persisted` field. The optional change callback is the `delivered` log.
- An agent keeps only the name and evolution level. The malformed Grok entry is read as the agent named "Grok" with level 3.
- `GateConfig.kt`, `NavDestination.kt` and `GateTile.kt` are constant tables. Only the gate routes the carousel navigates to are transcribed.
