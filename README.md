# Outlands Atlas — a Dafny model of the map core

Outlands Atlas is an interactive web map of the Outlands dungeon floors.
Each floor ("Level 1" … "Level 8", with "Level 6.5") is a grid of
256-pixel PNG tiles. The tiles are stored in numbered directories (the
columns), and each directory holds numbered files (the rows). A floor's
`required_tiles.json` names its tile range `{startDir, endDir, startTile,
endTile}`. Three pieces of code use that range:

- the map page (`MapManager`) lays each floor out as image overlays;
- a download script fetches the missing tiles and prunes files outside
  the range;
- a bundling script stacks each directory's tiles into one vertical
  sprite sheet.

On top of the tiles the map page shows location markers. They are grouped
by main category ("Passage", "Runes") and subcategory. Each marker is
drawn with an icon from a fixed registry or with a coloured square. Its
size follows the zoom level. Subcategories can be hidden, one at a time
or all at once.

The page also has two widgets:

- a rune-assignment planner, a table of players and their three runes
  kept in local storage;
- a pan/zoom image viewer.

The model has one module per source file:

| module | file | what it holds |
|---|---|---|
| `Wrappers` | — | `Option` |
| `Types` | `src/types.ts` | locations, coordinates, category data, and the icon registry `AVAILABLE_ICONS` with its properties |
| `TileGrid` | `src/map.ts`, `scripts/download.js`, `src/scripts/bundleTiles.ts` | the tile range, its directories and file numbers, and the directory-major enumeration of tiles shared by the three programs |
| `TileLayout` | `src/map.ts` | the overlay bounds and view bounds `loadAllMapLayers` computes, and their geometry |
| `Markers` | `src/map.ts` | marker size, icon choice, the marker list `updateMarkers` builds, hide-all and zoom-end rescaling |
| `MapManagement` | `src/map.ts` | class `MapManager`: the layer cache, current level, hidden categories and marker list, updated in place |
| `RuneAssignments` | `src/components/RuneAssignmentsMenu.ts` | classes `RuneAssignment` and `RuneAssignmentsMenu`: the stored list, row handlers, and the sorted rune options |
| `ImageViewing` | `src/components/utils/imageViewer.ts` | the viewer state, one step function per event handler, and class `ImageViewer` |
| `TileDownload` | `scripts/download.js` | the download loop, the cleanup pass, and the JavaScript `parseInt` it relies on |
| `TileBundling` | `src/scripts/bundleTiles.ts` | the per-directory sprite-sheet loop |

Whatever the code does through I/O becomes a parameter:

- fetched tile configs are a `map<string, TileConfig>`;
- the cloud config is a `bool`;
- an HTTP attempt is an `Attempt` value;
- the files already on disk are a set of `(dir, file)` pairs;
- a directory listing is a list of `Entry` values;
- sharp's metadata is a function from the directory number;
- `localStorage` is a field.

The JavaScript objects that the code iterates with `for … in`,
`Object.keys` or `Object.values` are association lists, taken in list
order.

## Model

| member | source | states |
|---|---|---|
| Types.CoordinateList | src/map.ts:63-65 | a single coordinate pair becomes a one-element list; an array of pairs is taken as it is |
| Types.ScaleOr100 | src/map.ts:333 | `location.scale \|\| 100`: a present, non-zero scale is kept; a missing or zero scale gives 100 |
| Types.Get | src/types.ts:90-102 | looking up a key of a JSON object finds a value exactly when some entry has that key, and the value it finds is that entry's value |
| Types.Keys | src/map.ts:594-597 | `Object.keys` holds exactly the keys of the entries |
| Types.AvailableIconsScalesInRange | src/types.ts:22-88 | every icon in `AVAILABLE_ICONS` has a scale between 100 and 300 percent |
| Types.AvailableIconsPathsDistinct | src/types.ts:22-88 | no two icons in `AVAILABLE_ICONS` share a path, so a lookup by path is unambiguous |
| Types.JoinDistinct | src/types.ts:22-88 | concatenating two registries whose paths are distinct within each and apart from each other keeps all paths distinct |
| TileGrid.Directories | scripts/download.js:88-91 | the directory array has one entry per directory of the range, `startDir` upward; it is empty when the range is empty or reversed |
| TileGrid.FileNumbers | scripts/download.js:94-97 | one entry per file number of the range, in ascending order |
| TileGrid.ColumnPairs | scripts/download.js:107-108 | the inner loop of one directory: its tiles, files ascending; its length and order are stated by `PairsUpToLength` and `PairsUpToOrdered` |
| TileGrid.PairsUpTo | scripts/download.js:103-108 | the tiles the nested loop visits in its first `n` directories; `PairsUpToLength`, `PairsUpToBounds`, `PairsUpToOrdered` and `PairsUpToComplete` state what they are |
| TileGrid.Pairs | src/map.ts:396-403 | every tile of the range in visiting order; `PairsExactlyTheRange` states that it is each tile of the range once, directory-major |
| TileGrid.PairsUpToLength | scripts/download.js:103-107 | the first `n` directories of the nested loop visit `n` times the number of files |
| TileGrid.PairsCount | src/map.ts:390-397 | the nested tile loops visit `numCols * numRows` tiles when both are non-negative, and none when either is not positive |
| TileGrid.PairsUpToBounds | scripts/download.js:103-107 | every tile visited within the first `n` directories has a directory among them and a file in the range |
| TileGrid.PairsUpToOrdered | scripts/download.js:103-107 | the tiles are visited directory by directory, files ascending within each directory |
| TileGrid.PairsUpToComplete | scripts/download.js:103-107 | every tile of the range within the first `n` directories is visited |
| TileGrid.PairsExactlyTheRange | src/map.ts:396-403 | the nested loops visit exactly the tiles of the range, each once, in directory-major order |
| TileGrid.SmallConfigPairs | src/map.ts:396-403 | the range 1..2 × 1..2 is visited as (1,1), (1,2), (2,1), (2,2) |
| TileLayout.CellRect | src/map.ts:405-409 | the cell of column `col` and row `row` is one tile square; row 0 is at the top, because latitude grows upward |
| TileLayout.OverlayFor | src/map.ts:401-414 | the image overlay of one tile: its path and its padded bounds, which `OverlayBounds` and `NeighboursOverlap` state |
| TileLayout.FloorOverlays | src/map.ts:396-416 | the floor's overlays in visiting order; `FloorOverlaysOnePerTile` states one per tile of the range, `BuildTileLayer` that the loop builds it |
| TileLayout.ViewBounds | src/map.ts:419-422 | the floor's view bounds; `CellsInsideView` and `CellsCoverView` state that the tile cells exactly cover them |
| TileLayout.OverlaysOf | src/map.ts:401-414 | one image overlay per visited tile, in visiting order, for directory `col + startDir` and file `row + startTile` |
| TileLayout.BuildTileLayer | src/map.ts:396-416 | the nested column/row loop builds exactly the floor's overlay list |
| TileLayout.FloorOverlaysOnePerTile | src/map.ts:394-416 | a floor has `numCols * numRows` overlays, one for each tile of its range and no other tile, with no tile twice; an empty range has none |
| TileLayout.OverlayBounds | src/map.ts:404-409 | an overlay's bounds are its cell padded by the 2-unit overlap on every side: `[(numRows-row-1)*256-2, col*256-2]` to `[(numRows-row)*256+2, (col+1)*256+2]` |
| TileLayout.RowsInverted | src/map.ts:407-408 | a later row lies entirely below an earlier one |
| TileLayout.CellsInsideView | src/map.ts:419-422 | every tile cell lies inside the view bounds `[0,0]`–`[numRows*256, numCols*256]` |
| TileLayout.CellsCoverView | src/map.ts:405-422 | every point of the view bounds lies in some tile cell of the range |
| TileLayout.CellsDisjoint | src/map.ts:405-409 | no point lies in two different cells, so the unpadded cells tile the view |
| TileLayout.NeighboursOverlap | src/map.ts:404-409 | neighbouring overlays overlap by 4 units horizontally and vertically: the seam the overlap hides |
| TileLayout.SmallFloorLayout | src/map.ts:390-422 | a 2×2 floor has 4 overlays and view bounds 512×512 |
| Markers.UpperChar | src/map.ts:59 | `toUpperCase` on one character: a lower-case ASCII letter becomes its capital; anything else is kept |
| Markers.LowerChar | src/map.ts:488 | `toLowerCase` on one character: a capital ASCII letter becomes its lower-case form; anything else is kept |
| Markers.Capitalise | src/map.ts:59 | upper-casing the first character keeps the length and the tail; it changes the name exactly when the first character is a lower-case letter; the result never starts with one |
| Markers.CapitaliseIdempotent | src/map.ts:59 | capitalising twice is capitalising once |
| Markers.Lower | src/map.ts:488 | lower-casing keeps the length and lower-cases each character |
| Markers.Pow2Monotone | src/map.ts:229 | `2^zoom` grows with the zoom |
| Markers.MarkerSize | src/map.ts:225-230 | the marker size is 32 without a map; with a map it is `32 * 2^zoom` clamped to 16..128: 16 at zoom ≤ -1 and 128 at zoom ≥ 2 |
| Markers.FindIcon | src/map.ts:474 | `Object.values(AVAILABLE_ICONS).find(…)` returns a registry icon with the requested path, and returns nothing exactly when no icon has that path |
| Markers.FindIconAt | src/map.ts:474 | with distinct paths, finding an icon's path returns that icon |
| Markers.RegistryScaleFor | src/map.ts:474-475 | `iconConfig?.scale \|\| 100`: 100 for an unknown path, otherwise the icon's non-zero scale; it lies in 100..300 when the registry's scales do |
| Markers.Anchor | src/map.ts:477-482 | the icon anchor is the icon's centre: half its size in each direction |
| Markers.ScaledWithin | src/map.ts:476 | scaling a positive size by 100..300 percent gives between one and three times the size |
| Markers.Scaled | src/map.ts:476 | `size * scale / 100` lies in size..3·size for a scale in 100..300, and is the size itself at 100 |
| Markers.CreateMarkerIcon | src/map.ts:469-519 | the icon a location's marker gets; `MarkerIconChoice` states the choice and size, `MarkerIconSizes` their range |
| Markers.MarkerIconChoice | src/map.ts:469-519 | a location with its own icon is drawn with that image, at the registry scale or at the base size when unregistered; otherwise "passage/stairs" gets the stairs icon at 2.5× and "passage/portals" the yellow gate at 1.5×; every other key gets a square in the main category's colour at the base size; with registry scales in range the drawn size lies in size..3·size |
| Markers.LocationMarkers | src/map.ts:62-78 | a location gives one marker per coordinate pair, in order, each carrying the location, its category names and the icon `createMarkerIcon` chooses |
| Markers.LocationMarkerSound | src/map.ts:67-74 | every marker of a location carries that location, the given category names, and the icon built for it |
| Markers.LocationsMarkerSound | src/map.ts:62-78 | every marker built for a subcategory's locations comes from one of them, with the given category names and the icon built for it |
| Markers.LocationsMarkers | src/map.ts:62-78 | the markers of a subcategory's locations, in list order; `LocationsMarkersSound` and `LocationsMarkersComplete` state that they are exactly one per coordinate pair |
| Markers.LocationsMarkersSound | src/map.ts:62-78 | the same, for all markers of the subcategory at once |
| Markers.SubcategoryMarkers | src/map.ts:58-81 | the markers of a main category's visible subcategories; `SubcategoryMarkersSound` and `VisibleLocationHasMarker` state which they are |
| Markers.LevelMarkers | src/map.ts:56-110 | a level's Passage markers followed by its Runes markers; `MarkersForSound` states what each of them is |
| Markers.SubcategoryMarkersSound | src/map.ts:58-81 | every marker of a main category belongs to a subcategory whose capitalised name is not hidden, carries that name, and comes from one of its locations |
| Markers.MarkersFor | src/map.ts:51-52 | a level missing from the locations data shows no markers |
| Markers.MarkersForSound | src/map.ts:44-111 | every marker `updateMarkers` shows is a Passage or Runes marker of a visible category, with the icon built for it |
| Markers.LocationsMarkersComplete | src/map.ts:62-78 | every coordinate pair of every location of a subcategory gets its marker |
| Markers.LocationMarkersIncluded | src/map.ts:62-78 | the markers of one location are among those of its subcategory |
| Markers.VisibleLocationHasMarker | src/map.ts:58-81 | every coordinate pair of every location in a subcategory whose capitalised name is not hidden gets its marker |
| Markers.VisibleSubcategoryIncluded | src/map.ts:58-81 | the markers of a visible subcategory are among those of its main category |
| Markers.SubcategoryMarkersGrow | src/map.ts:58-81 | adding a subcategory keeps the markers already built |
| Markers.LastSubcategoryMarkers | src/map.ts:58-81 | a visible last subcategory contributes its markers |
| Markers.AllHiddenNoMarkers | src/map.ts:58-61 | when every capitalised subcategory name is hidden, the main category shows no marker |
| Markers.MarkerIconSizes | src/map.ts:225-230 | every marker icon `updateMarkers` draws is between 16 and 384 pixels |
| Markers.CategoryKeys | src/map.ts:590-601 | the subcategory keys of every level's Passage and Runes; `CategoryKeysComplete` and `CategoryKeysSound` state that it is exactly those |
| Markers.CategoryKeysComplete | src/map.ts:590-601 | the category set holds every Passage and Runes key of every level |
| Markers.CategoryKeysSound | src/map.ts:590-601 | every key in the category set comes from some level's Passage or Runes data |
| Markers.HideAllHidesCapitalisedKeys | src/map.ts:580-584 | when the current level's keys are already capitalised, hiding all categories leaves no markers |
| Markers.HideAllMissesLowercaseKeys | src/map.ts:580-584 | hide-all adds the raw keys, but the marker filter checks capitalised names: a level with a lower-case key whose capitalised form is no raw key keeps showing markers after hide-all |
| Markers.RescaleMarker | src/map.ts:320-346 | on zoom end a marker with both category names keeps its position, location, categories and artwork, and its size becomes `size * (location.scale \|\| 100) / 100`; any other marker is unchanged |
| Markers.ScaledUnchangedIff | src/map.ts:333 | rescaling a positive size leaves it unchanged exactly when the scale is 100 percent |
| Markers.RescaleIgnoresRegistryScale | src/map.ts:320-346 | for a location with a registered icon and no own scale, creation uses the registry scale but zoom end uses 100; the sizes agree only when the registry scale is 100 |
| Markers.RescaleAgreesForSquares | src/map.ts:320-346 | for square markers, zoom-end rescaling gives the same icon size and anchor as building the marker at the new size |
| Markers.StairsLocationShrinksOnZoomEnd | src/map.ts:320-346 | a location with the stairs icon and no scale is drawn at 2.5× and drops to 1× at the next zoom end |
| MapManagement.Toggle | src/map.ts:566-571 | toggling a name flips its membership in the hidden set and leaves every other name alone |
| MapManagement.ToggleTwice | src/map.ts:566-571 | toggling twice restores the hidden set |
| MapManagement.AppendLocationMarkers | src/map.ts:62-78 | the coordinate loop appends exactly the location's markers to the markers layer |
| MapManagement.AppendLocationsMarkers | src/map.ts:62-79 | the `forEach` over a subcategory appends exactly its locations' markers |
| MapManagement.AppendSubcategoryMarkers | src/map.ts:58-81 | the `for … in` loop over a main category appends exactly its visible subcategories' markers |
| MapManagement.AddKeys | src/map.ts:594-597 | adding a category's keys to the set keeps earlier keys first, gains exactly the new keys, and keeps keys distinct |
| MapManagement.GetAllCategories | src/map.ts:590-601 | the result holds exactly the Passage and Runes keys of all levels, each once |
| MapManagement.FirstMissing | src/map.ts:382-386 | the index of the first level whose tile config is missing, or the number of levels when all are present |
| MapManagement.FirstMissingAt | src/map.ts:382-386 | that index is the unique position before which all configs are present and at which one is missing |
| MapManagement.NoneMissing | src/map.ts:382-386 | loading gets through every level exactly when every level has a config |
| MapManagement.LevelsDistinct | src/map.ts:379 | the nine level names are distinct |
| MapManagement.MapManager.constructor | src/map.ts:17-27 | a new manager shows "Level 1", hides nothing, has no map, no layers and no markers, and is not loading |
| MapManagement.MapManager.UpdateMarkers | src/map.ts:44-111 | without a map nothing changes; with one, the markers layer holds exactly the current level's visible markers at the current size |
| MapManagement.LayerFor | src/map.ts:425-428 | the stored layer of a floor: its overlays and view bounds, built by `BuildTileLayer` |
| MapManagement.MapManager.CacheLevelLayer | src/map.ts:424-435 | the level's layer is stored; the first layer is also attached, and the view is fitted to its bounds at the zoom fitting picks; nothing else is attached |
| MapManagement.MapManager.LoadLevels | src/map.ts:382-436 | the loop caches each level's layer in order until a config is missing; other cached layers are unchanged; only the first level is attached, and the view and zoom are fitted to it |
| MapManagement.MapManager.LoadAllMapLayers | src/map.ts:372-447 | without a map nothing changes; otherwise the loaded levels are cached and the first is shown, with the view and zoom fitted to it; it succeeds exactly when every level has a config; markers are updated only on success, at the fitted zoom; the loading flag is cleared either way |
| MapManagement.MapManager.LoadMapLayer | src/map.ts:449-467 | without a map, or while loading, nothing changes; otherwise exactly the requested level's layer is attached, the view fits its bounds, and the markers are rebuilt |
| MapManagement.MapManager.SetLevel | src/map.ts:558-564 | while loading nothing changes; otherwise the level becomes current and its layer is shown |
| MapManagement.MapManager.IsCategoryVisible | src/map.ts:586-588 | a category is visible exactly when it is not hidden |
| MapManagement.MapManager.ToggleCategory | src/map.ts:566-573 | the toggled category's visibility flips, every other category's is kept, and the markers are rebuilt |
| MapManagement.MapManager.ShowAllCategories | src/map.ts:575-578 | afterwards every category is visible, and the markers are rebuilt |
| MapManagement.MapManager.HideAllCategories | src/map.ts:580-584 | all raw category keys of all levels are added to the hidden set, and the markers are rebuilt |
| MapManagement.MapManager.ZoomEnd | src/map.ts:320-346 | the markers layer keeps its markers in order, each rescaled to the new zoom's size |
| MapManagement.MapManager.TearDown | src/map.ts:235-248 | re-initialising removes the map, its markers and the layer cache |
| MapManagement.MapManager.Initialize | src/map.ts:234-364 | it succeeds exactly when the cloud config loads and every level has a config; a failing cloud config leaves no map; on success every level's layer is cached, only the first level is attached, the view is fitted to its bounds, the zoom is the one that fit picks, and the current level's markers are shown at that zoom |
| RuneAssignments.RuneAssignment.Value | src/components/RuneAssignmentsMenu.ts:3-6 | a record of the player name and the runes |
| RuneAssignments.Splice | src/components/RuneAssignmentsMenu.ts:290 | `splice(index, 1)` removes exactly the element at `index`, shifting later ones down; an index past the end changes nothing |
| RuneAssignments.SpliceRemovesOne | src/components/RuneAssignmentsMenu.ts:290 | the removed element and the rest together are the original multiset |
| RuneAssignments.StaleIndexAfterEarlierDelete | src/components/RuneAssignmentsMenu.ts:289-293 | rows keep the index they were built with: after deleting an earlier row, a later row's delete removes the record after its own, or nothing when it was the last, and its own record survives |
| RuneAssignments.StaleDeleteMissesItsRecord | src/components/RuneAssignmentsMenu.ts:289-293 | with distinct records, that stale delete removes a neighbour's record, and the list length shows whether anything was removed |
| RuneAssignments.RuneAssignmentsMenu.Values | src/components/RuneAssignmentsMenu.ts:12 | the stored list's records, in order |
| RuneAssignments.RuneAssignmentsMenu.constructor | src/components/RuneAssignmentsMenu.ts:60-70 | loading takes the saved records when the stored text parses, and starts empty when nothing is saved or parsing fails |
| RuneAssignments.RuneAssignmentsMenu.Save | src/components/RuneAssignmentsMenu.ts:72-74 | storage then holds the current records |
| RuneAssignments.RuneAssignmentsMenu.ToggleMenu | src/components/RuneAssignmentsMenu.ts:188-191 | the first opening builds one row per assignment, capturing its object and index; later openings keep the rows |
| RuneAssignments.RuneAssignmentsMenu.AddNewAssignment | src/components/RuneAssignmentsMenu.ts:305-319 | an empty record is appended without saving; a row is added for it only when the menu is built |
| RuneAssignments.RuneAssignmentsMenu.DeleteRow | src/components/RuneAssignmentsMenu.ts:289-293 | the delete button splices the list at the row's captured index, removes the row and saves |
| RuneAssignments.RuneAssignmentsMenu.ChangeName | src/components/RuneAssignmentsMenu.ts:241-244 | the row's assignment gets the new name with its runes unchanged; every other record is unchanged, and storage holds the records |
| RuneAssignments.RuneAssignmentsMenu.ChangeRune | src/components/RuneAssignmentsMenu.ts:264-267 | the row's assignment gets the new rune at that index; every other record is unchanged, and storage holds the records |
| RuneAssignments.Flatten | src/components/RuneAssignmentsMenu.ts:82-86 | the rune names of all circles in order; `FlattenMembers` states that they are exactly those |
| RuneAssignments.FlattenMembers | src/components/RuneAssignmentsMenu.ts:82-86 | the collected names are exactly the rune names of all circles |
| RuneAssignments.StringLe | src/components/RuneAssignmentsMenu.ts:88 | the default sort order; `StringLeTotal`, `StringLeTrans` and `StringLeAntisymmetric` state that it is a total order |
| RuneAssignments.StringLeTotal | src/components/RuneAssignmentsMenu.ts:88 | the default sort order compares any two strings |
| RuneAssignments.StringLeTrans | src/components/RuneAssignmentsMenu.ts:88 | the default sort order is transitive |
| RuneAssignments.StringLeAntisymmetric | src/components/RuneAssignmentsMenu.ts:88 | strings that sort both ways are equal |
| RuneAssignments.Insert | src/components/RuneAssignmentsMenu.ts:88 | inserting into a sorted list keeps it sorted and adds exactly the element |
| RuneAssignments.Sorted | src/components/RuneAssignmentsMenu.ts:88 | a list in the default sort order; `Sort` establishes it and `SortedUnique` shows it fixes the result |
| RuneAssignments.Sort | src/components/RuneAssignmentsMenu.ts:88 | `sort()` returns a sorted permutation of its input |
| RuneAssignments.SortedUnique | src/components/RuneAssignmentsMenu.ts:88 | two sorted lists with the same elements are equal, so the sorted rune list is determined by the names alone |
| RuneAssignments.LoadRuneOptions | src/components/RuneAssignmentsMenu.ts:76-93 | a failed fetch gives no options; otherwise the options are the circles' rune names, all of them, sorted |
| ImageViewing.MouseDown | src/components/utils/imageViewer.ts:33-40 | pressing starts a drag at the pointer and keeps the transform |
| ImageViewing.MouseMove | src/components/utils/imageViewer.ts:42-53 | outside a drag nothing changes; during a drag the image moves by the pointer's displacement |
| ImageViewing.MouseUp | src/components/utils/imageViewer.ts:55-59 | releasing ends the drag and changes nothing else |
| ImageViewing.WheelScale | src/components/utils/imageViewer.ts:71 | the new scale stays within 0.1..8 |
| ImageViewing.Wheel | src/components/utils/imageViewer.ts:61-81 | the wheel keeps the scale within 0.1..8 and changes neither the drag state nor the last pointer position |
| ImageViewing.WheelKeepsPointUnderCursor | src/components/utils/imageViewer.ts:69-78 | the image point under the cursor is the same before and after zooming |
| ImageViewing.WheelDirection | src/components/utils/imageViewer.ts:70-71 | scrolling up never shrinks the scale, scrolling down never grows it, and a zero delta keeps it |
| ImageViewing.ImageLoad | src/components/utils/imageViewer.ts:83-97 | loading an image changes only the transform |
| ImageViewing.ImageLoadFitsAndCentres | src/components/utils/imageViewer.ts:83-97 | the loaded image fits the viewer, touches it on one side, and is centred |
| ImageViewing.ImageLoadNotClamped | src/components/utils/imageViewer.ts:88 | the fit scale is not clamped: a 10-pixel image in a 1000-pixel viewer gets scale 100, above the wheel's bound of 8 |
| ImageViewing.Moves | src/components/utils/imageViewer.ts:42-53 | a sequence of moves never changes the scale |
| ImageViewing.DragTotal | src/components/utils/imageViewer.ts:42-53 | over a drag, the image moves by the total pointer displacement from the last press point to the last move |
| ImageViewing.PressAndDrag | src/components/utils/imageViewer.ts:33-53 | press then move: the translation changes by the last pointer position minus the press position |
| ImageViewing.MovesWithoutDrag | src/components/utils/imageViewer.ts:42-43 | moves without a press change nothing |
| ImageViewing.ImageViewer.constructor | src/components/utils/imageViewer.ts:20-27 | scale 1, no translation, not dragging |
| ImageViewing.ImageViewer.HandleMouseDown | src/components/utils/imageViewer.ts:33-40 | the state becomes the mouse-down step of the old state |
| ImageViewing.ImageViewer.HandleMouseMove | src/components/utils/imageViewer.ts:42-53 | the state becomes the mouse-move step of the old state |
| ImageViewing.ImageViewer.HandleMouseUp | src/components/utils/imageViewer.ts:55-59 | the state becomes the mouse-up step of the old state |
| ImageViewing.ImageViewer.HandleWheel | src/components/utils/imageViewer.ts:61-81 | the state becomes the wheel step at the pointer's position relative to the viewer |
| ImageViewing.ImageViewer.HandleImageLoad | src/components/utils/imageViewer.ts:83-97 | the state becomes the fit-and-centre step of the old state |
| TileDownload.DownloadFile | scripts/download.js:13-31 | a download succeeds exactly when the request gets an ok status and the file is written |
| TileDownload.Missing | scripts/download.js:110-123 | the tiles the loop requests; `MissingExactly` states that they are the range's absent tiles, each once |
| TileDownload.Completed | scripts/download.js:111-130 | the `downloaded` count; `CompletedBounds` states its bounds |
| TileDownload.Total | scripts/download.js:85 | the `total` of a floor; `CompletedWithinTotal` states that the count stays within it |
| TileDownload.MissingHolds | scripts/download.js:110-123 | a tile is requested exactly when it is in the range and not on disk |
| TileDownload.MissingNoLonger | scripts/download.js:103-123 | no more tiles are requested than the range holds |
| TileDownload.MissingDistinct | scripts/download.js:103-123 | no tile is requested twice |
| TileDownload.MissingExactly | scripts/download.js:103-123 | the requested tiles are exactly the missing ones of the range, each once |
| TileDownload.CompletedBounds | scripts/download.js:111-130 | the count lies between the number of tiles already present and the size of the range; it reaches the size when every request succeeds |
| TileDownload.CompletedWithinTotal | scripts/download.js:85-130 | the count never exceeds `total`; with exactly one of the two extents negative, `total` is negative and nothing is counted |
| TileDownload.DownloadStep | scripts/download.js:107-133 | one more tile adds it to the requests when it is missing, and adds one to the count when it is present or its download succeeds |
| TileDownload.DownloadFloorTiles | scripts/download.js:84-135 | the loop requests exactly the missing tiles in directory-major order and counts the tiles present or downloaded |
| TileDownload.DownloadDirectory | scripts/download.js:103-134 | one directory's file loop extends the requests and the count by that directory's tiles |
| TileDownload.TrimStart | scripts/download.js:45 | `parseInt` skips leading white space: the result is a suffix of the input and does not start with white space |
| TileDownload.DigitRun | scripts/download.js:45 | the longest prefix of digits in the radix |
| TileDownload.NatToString | scripts/download.js:104 | the decimal numeral of a natural number: digits only, with no leading zero |
| TileDownload.ValueOfNatToString | scripts/download.js:45 | the digits of a numeral read back to the number |
| TileDownload.ParseUnsigned | scripts/download.js:45 | the digit run `parseInt` reads after any sign, hexadecimal after a `0x` prefix; `ParseUnsignedOfNatToString` states that it reads a numeral back |
| TileDownload.ParseInt | scripts/download.js:45 | `parseInt`: optional whitespace and sign, then a digit run, NaN (`None`) without digits; `ParseIntOfIntToString` states the round trip |
| TileDownload.IntToString | scripts/download.js:104 | `toString` of an integer, the directory name the loop writes; `ParseIntOfIntToString` states that `ParseInt` inverts it |
| TileDownload.ParseUnsignedOfNatToString | scripts/download.js:45 | `parseInt` reads a natural numeral back to the number |
| TileDownload.ParseIntAfterSign | scripts/download.js:45 | a leading minus negates the parsed digits |
| TileDownload.ParseIntOfNegative | scripts/download.js:45 | `parseInt("-" + n)` is `-n` |
| TileDownload.ParseIntOfNatural | scripts/download.js:45 | `parseInt` of a natural numeral is the number |
| TileDownload.ParseIntOfIntToString | scripts/download.js:45 | `parseInt(n.toString()) == n` for every integer, so directory and file names written by the download loop parse back to their numbers |
| TileDownload.Stem | scripts/download.js:58 | `file.split('.')[0]`: the longest dot-free prefix; it is followed by a dot when shorter than the name |
| TileDownload.DirKept | scripts/download.js:45-48 | a directory survives cleanup unless its number is outside the directory range; `WrittenNamesKeptIffInRange` and `NaNNamesKept` state which names survive |
| TileDownload.FileKept | scripts/download.js:57-59 | a file survives unless it is a PNG whose number is outside the tile range; `WrittenNamesKeptIffInRange` and `NaNNamesKept` state which names survive |
| TileDownload.KeptFiles | scripts/download.js:56-64 | the files kept are exactly those not deleted: non-PNG files, and PNG files whose number is not outside the range |
| TileDownload.KeptEntries | scripts/download.js:40-66 | the directory listing after cleanup; `KeptEntriesExactly` states what survives |
| TileDownload.KeptEntryExactly | scripts/download.js:40-66 | one directory entry survives cleanup exactly as the pruning rules say |
| TileDownload.KeptEntriesHold | scripts/download.js:40-66 | an entry survives cleanup exactly when one of the listed entries leads to it |
| TileDownload.KeptEntriesExactly | scripts/download.js:40-66 | after cleanup: non-directories all remain; directories remain exactly when their number is not outside the range, with their files pruned |
| TileDownload.WrittenNamesKeptIffInRange | scripts/download.js:45-59 | names the download loop writes are kept exactly when their number is in the range |
| TileDownload.StemBeforeDot | scripts/download.js:58 | the stem of `name.ext` is `name` |
| TileDownload.NaNNamesKept | scripts/download.js:45-59 | a name `parseInt` reads as NaN is never outside the range, so it is kept |
| TileDownload.NaNNameExamples | scripts/download.js:45-59 | a directory named "thumbs" and a file named "x.png" both survive cleanup |
| TileDownload.LetterStemParsesToNaN | scripts/download.js:58 | a file name starting with a letter past 'f' has a stem that parses to NaN |
| TileDownload.LetterParsesToNaN | scripts/download.js:45 | a name starting with a letter past 'f' parses to NaN |
| TileDownload.CleanupFiles | scripts/download.js:33-73 | a missing floor directory (ENOENT) is ignored; otherwise the listing after cleanup is the pruned listing |
| TileDownload.KeepFiles | scripts/download.js:56-65 | the file loop deletes exactly the PNG files outside the range |
| TileBundling.EdgeOr256 | src/scripts/bundleTiles.ts:40-41 | `width \|\| 256`: a present, non-zero dimension is kept; otherwise 256; always positive |
| TileBundling.ReadTiles | src/scripts/bundleTiles.ts:28-36 | the tile loop reads the directory's tiles from `startTile` to `endTile`, ascending |
| TileBundling.Layout | src/scripts/bundleTiles.ts:52-57 | the placements of the stacked tiles; `LayoutContiguous`, `LayoutDisjoint` and `LayoutFillsCanvas` state that they stack without gaps or overlap |
| TileBundling.LayoutContiguous | src/scripts/bundleTiles.ts:52-57 | the first tile is at the top, and each next tile starts where the previous one ends |
| TileBundling.LayoutDisjoint | src/scripts/bundleTiles.ts:52-57 | no two stacked tiles overlap |
| TileBundling.LayoutFillsCanvas | src/scripts/bundleTiles.ts:44-57 | every tile lies inside the sheet, and the last one ends at its bottom edge |
| TileBundling.BundleTilesForFloor | src/scripts/bundleTiles.ts:10-62 | the floor fails before writing anything exactly when the range has directories but no files; otherwise one sheet per directory, ascending, each stacking its directory's tiles at the first tile's size |
| TileBundling.BundleFor | src/scripts/bundleTiles.ts:39-58 | the sheet written for one directory; `BundleIsFullSheet` states its size and contents |
| TileBundling.BundleIsFullSheet | src/scripts/bundleTiles.ts:44-57 | a sheet of a non-empty range holds one placement per tile, in file order, and is exactly as tall as its tiles |

## Left out

- Leaflet, the DOM, popups (`createPopupContent`), the sidebar (`initializeSidebar`, with its category click toggle), the coordinate display, the map-link clipboard handler, and progress callbacks: these are rendering and I/O. The marker, layer and category state they read is modelled.
- Fitting the map to bounds: the zoom Leaflet picks depends on the viewport, so the first fit's zoom is the parameter `fittedZoom`. That fit runs before the map has a view, so Leaflet applies it at once and `updateMarkers` uses it. Later fits and `setZoom` on the loaded map animate, and their zoom reaches the model as a zoom-end event (`ZoomEnd`).
- MapManagement.MapManager.Initialize: when the first level's config is missing, the new map has no view and `getZoom()` is undefined. The model keeps the previous zoom.
- MapManagement.MapManager.ZoomEnd: only integer zoom levels are modelled. The map's `zoomSnap` of 0.25 allows fractional levels, where `2^zoom` is not rational.
- Markers.UpperChar and Markers.LowerChar: case mapping covers ASCII letters only. JavaScript's `toUpperCase`/`toLowerCase` also map other Unicode letters.
- JavaScript objects are association lists iterated in list order. JavaScript orders integer-like keys first, and a lookup takes the first entry with the key (JSON keys are unique anyway).
- The icon registry is passed as a parameter, `AvailableIcons`. The values of `Object.values(AVAILABLE_ICONS)` are taken in declaration order.
- Types.CoordinateList: an empty coordinates array (`coordinates[0]` undefined) is treated as a single pair by the source. The model reads the JSON shape as given: a single pair, or a list of pairs.
- The route types (`src/types.ts`:113-138) belong to the route layer. That layer is not part of this model.
- `src/app.ts` constructs `MapManager` with no argument, although its constructor takes the locations data. The model's constructor takes the data.
- Tile configs, the cloud config (`initializeCloudcubeUrl`) and `loadTileConfig` are fetched in the source; here they are parameters. A fetch that fails is a missing config, and the loop stops at the first one.
- MapManagement.MapManager.SetLevel: `loadMapLayer` runs synchronously. The source's `then` (re-initialising the sidebar) and any interleaving with other events are left out.
- RuneAssignments.RuneAssignmentsMenu.ToggleMenu: the backdrop's visibility, the escape-key listener and the button styling are DOM state and are not modelled. Only the building of the rows is.
- Rows are built synchronously. The source awaits `loadRuneOptions` for each row, so events could interleave with row building; that interleaving is not modelled.
- `localStorage` is a field whose stored text is abstracted to nothing, empty, malformed, or a well-formed record list. JSON that parses but is not an array of records is treated as well-formed.
- RuneAssignments.Sort: strings are compared by code point. JavaScript's default sort compares UTF-16 code units; the two differ only above U+FFFF.
- RuneAssignments.LoadRuneOptions: `runes.json` is fetched in the source; here it is a parameter, `None` when the fetch or the JSON parse fails.
- Markers.RescaleMarker: `Icon.size` models the icon's `iconSize` and anchor only. The source's rewrite of a square's HTML changes its width but not its height, and the HTML is not modelled.
- ImageViewing.ImageViewer.HandleImageLoad: it requires a viewer of positive size. A hidden viewer (0 by 0) gets scale 0 and translate 0 in the source, after which the wheel handler divides by zero; that state is not modelled.
- ImageViewing.ImageLoad: it requires positive natural sizes. A zero-sized image divides by zero (Infinity or NaN in JavaScript) and is not modelled.
- ImageViewing: all arithmetic is on exact reals, not IEEE doubles.
- TileDownload.DownloadFloorTiles: the network, the file system and the 500 ms delay are parameters or omitted. Directory creation and the progress log are left out.
- TileDownload.ParseInt: digit strings are read into unbounded integers. JavaScript loses precision beyond 2^53.
- TileDownload.CleanupFiles: only ENOENT on the floor directory is modelled. Other file-system errors, which the source logs and then stops on, are not.
- TileBundling.BundleTilesForFloor: images are abstracted to the tile numbers they come from, and sharp's metadata is a parameter. A missing tile file, which makes sharp throw, is not modelled. With an empty file range the model fails the floor, for the zero-height canvas that sharp rejects.
- Bundling all floors at once (`src/scripts/bundleTiles.ts`:65-66, `Promise.all`) and creating the `bundles` directory are left out. Each floor is independent.
