/**
 * The `MapManager` of the map page: the per-level layer cache built from each
 * floor's tile range, the level shown, the set of hidden category names, the
 * markers of the current level and the loading flag that blocks level
 * switching while the layers load.
 *
 * Leaflet objects are abstracted: a layer is the list of its overlays with its
 * view bounds, the map's layers are the set of level names whose layer is
 * attached, the markers layer is the list of markers it holds, and one flag
 * stands for the map and its markers layer, which `initialize` creates
 * together. The tile configs and the cloud configuration that the source
 * fetches are parameters.
 */
module MapManagement {
  import opened Wrappers
  import opened Types
  import opened TileGrid
  import opened TileLayout
  import opened Markers

  /** The levels `loadAllMapLayers` loads, in order. */
  const Levels: seq<string> :=
    ["Level 1", "Level 2", "Level 3", "Level 4", "Level 5", "Level 6", "Level 6.5", "Level 7", "Level 8"]

  /** A cached level layer: its overlays and the bounds the map fits to when it is shown. */
  datatype Layer = Layer(overlays: seq<Overlay>, bounds: Rect)

  /** The layer `loadAllMapLayers` builds for a floor's tile range. */
  function LayerFor(c: TileConfig): Layer
  {
    Layer(FloorOverlays(c), ViewBounds(c))
  }

  /** `hiddenCategories` after `toggleCategory(name)`. */
  function Toggle(hidden: set<string>, name: string): (r: set<string>)
    ensures name in r <==> name !in hidden
    ensures forall x :: x != name ==> (x in r <==> x in hidden)
  {
    if name in hidden then hidden - {name} else hidden + {name}
  }

  /** Toggling a name twice restores the set. */
  lemma ToggleTwice(hidden: set<string>, name: string)
    ensures Toggle(Toggle(hidden, name), name) == hidden
  {
    var r := Toggle(Toggle(hidden, name), name);
    assert forall x :: x in r <==> x in hidden;
  }

  /** `coordinates.forEach(...)`: one marker per coordinate of `loc`, appended to `ms0`. */
  method AppendLocationMarkers(icons: Registry, mainCategory: string, categoryName: string, loc: Location,
                               size: real, ms0: seq<Marker>) returns (ms: seq<Marker>)
    ensures ms == ms0 + LocationMarkers(icons, mainCategory, categoryName, loc, size)
  {
    var coordinates := CoordinateList(loc.coordinates);
    ghost var all := LocationMarkers(icons, mainCategory, categoryName, loc, size);
    ms := ms0;
    var k := 0;
    while k < |coordinates|
      invariant 0 <= k <= |coordinates|
      invariant ms == ms0 + all[..k]
    {
      var marker := Marker(coordinates[k], loc, categoryName, mainCategory,
                           CreateMarkerIcon(icons, mainCategory, categoryName, loc, size));
      assert all[..k + 1] == all[..k] + [marker];
      ms := ms + [marker];
      k := k + 1;
    }
    assert all[..k] == all;
  }

  /** `locations.forEach(...)`: the markers of every location of one subcategory, appended to `ms0`. */
  method AppendLocationsMarkers(icons: Registry, mainCategory: string, categoryName: string, locs: seq<Location>,
                                size: real, ms0: seq<Marker>) returns (ms: seq<Marker>)
    ensures ms == ms0 + LocationsMarkers(icons, mainCategory, categoryName, locs, size)
  {
    ms := ms0;
    var j := 0;
    while j < |locs|
      invariant 0 <= j <= |locs|
      invariant ms == ms0 + LocationsMarkers(icons, mainCategory, categoryName, locs[..j], size)
    {
      ghost var prev := LocationsMarkers(icons, mainCategory, categoryName, locs[..j], size);
      ghost var added := LocationMarkers(icons, mainCategory, categoryName, locs[j], size);
      LocationsMarkersStep(icons, mainCategory, categoryName, locs, size, j);
      ms := AppendLocationMarkers(icons, mainCategory, categoryName, locs[j], size, ms);
      AppendAssoc(ms0, prev, added);
      j := j + 1;
    }
    assert locs[..j] == locs;
  }

  /** The markers of the first `j + 1` locations extend those of the first `j`. */
  lemma LocationsMarkersStep(icons: Registry, mainCategory: string, categoryName: string, locs: seq<Location>,
                             size: real, j: int)
    requires 0 <= j < |locs|
    ensures LocationsMarkers(icons, mainCategory, categoryName, locs[..j + 1], size) ==
      LocationsMarkers(icons, mainCategory, categoryName, locs[..j], size) +
      LocationMarkers(icons, mainCategory, categoryName, locs[j], size)
  {
    assert locs[..j + 1][..j] == locs[..j];
  }

  /** The layer cache after the first `i` levels: every one of them cached, everything else as it was. */
  ghost predicate CachedUpTo(cache: map<string, Layer>, cache0: map<string, Layer>, levels: seq<string>,
                             configs: map<string, TileConfig>, i: int)
    requires 0 <= i <= |levels|
  {
    && (forall t :: 0 <= t < i ==> levels[t] in configs)
    && (forall l :: l in cache <==> l in cache0 || l in levels[..i])
    && (forall t :: 0 <= t < i ==> cache[levels[t]] == LayerFor(configs[levels[t]]))
    && (forall l :: l in cache0 && l !in levels[..i] ==> cache[l] == cache0[l])
  }

  /** Caching the next level of a list without repeats extends the cached prefix by one. */
  lemma CacheNextLevel(cache: map<string, Layer>, cache0: map<string, Layer>, levels: seq<string>,
                       configs: map<string, TileConfig>, i: int)
    requires 0 <= i < |levels| && levels[i] in configs
    requires forall a, b :: 0 <= a < b < |levels| ==> levels[a] != levels[b]
    requires CachedUpTo(cache, cache0, levels, configs, i)
    ensures CachedUpTo(cache[levels[i] := LayerFor(configs[levels[i]])], cache0, levels, configs, i + 1)
  {
    assert levels[..i + 1] == levels[..i] + [levels[i]];
  }

  lemma AppendAssoc<T>(a: seq<T>, b: seq<T>, c: seq<T>)
    ensures (a + b) + c == a + (b + c)
  {
  }

  /** The markers of the first `i + 1` subcategories extend those of the first `i`. */
  lemma SubcategoryMarkersStep(icons: Registry, mainCategory: string, cd: CategoryData, hidden: set<string>,
                               size: real, i: int)
    requires 0 <= i < |cd|
    ensures SubcategoryMarkers(icons, mainCategory, cd[..i + 1], hidden, size) ==
      SubcategoryMarkers(icons, mainCategory, cd[..i], hidden, size) +
      (if Capitalise(cd[i].0) in hidden then [] else LocationsMarkers(icons, mainCategory, Capitalise(cd[i].0), cd[i].1, size))
  {
    assert cd[..i + 1][..i] == cd[..i];
  }

  /**
   * One of the two blocks of `updateMarkers`: for each subcategory key of a
   * main category, in key order, unless its capitalised name is hidden, the
   * markers of its locations, appended to `ms0`.
   */
  method AppendSubcategoryMarkers(icons: Registry, mainCategory: string, cd: CategoryData, hidden: set<string>,
                                  size: real, ms0: seq<Marker>) returns (ms: seq<Marker>)
    ensures ms == ms0 + SubcategoryMarkers(icons, mainCategory, cd, hidden, size)
  {
    ms := ms0;
    var i := 0;
    while i < |cd|
      invariant 0 <= i <= |cd|
      invariant ms == ms0 + SubcategoryMarkers(icons, mainCategory, cd[..i], hidden, size)
    {
      var categoryName := Capitalise(cd[i].0);
      ghost var prev := SubcategoryMarkers(icons, mainCategory, cd[..i], hidden, size);
      ghost var added := if categoryName in hidden then [] else LocationsMarkers(icons, mainCategory, categoryName, cd[i].1, size);
      SubcategoryMarkersStep(icons, mainCategory, cd, hidden, size, i);
      if categoryName !in hidden {
        ms := AppendLocationsMarkers(icons, mainCategory, categoryName, cd[i].1, size, ms);
      } else {
        assert ms == ms + added;
      }
      AppendAssoc(ms0, prev, added);
      i := i + 1;
    }
    assert cd[..i] == cd;
  }

  /** `Object.keys(cd).forEach(category => categories.add(category))` on a list that starts as `cats0`. */
  method AddKeys(cats0: seq<string>, cd: CategoryData) returns (cats: seq<string>)
    requires forall i, j :: 0 <= i < j < |cats0| ==> cats0[i] != cats0[j]
    ensures |cats| >= |cats0| && cats[..|cats0|] == cats0
    ensures forall k :: k in cats <==> k in cats0 || k in Keys(cd)
    ensures forall i, j :: 0 <= i < j < |cats| ==> cats[i] != cats[j]
  {
    cats := cats0;
    var j := 0;
    while j < |cd|
      invariant 0 <= j <= |cd|
      invariant |cats| >= |cats0| && cats[..|cats0|] == cats0
      invariant forall k :: k in cats <==> k in cats0 || exists t :: 0 <= t < j && cd[t].0 == k
      invariant forall a, b :: 0 <= a < b < |cats| ==> cats[a] != cats[b]
    {
      if cd[j].0 !in cats {
        cats := cats + [cd[j].0];
      }
      j := j + 1;
    }
  }

  /**
   * `getAllCategories`: every raw Passage and Runes subcategory key of every
   * level, each once, in the order first met.
   */
  method GetAllCategories(data: LocationsData) returns (cats: seq<string>)
    ensures forall k :: k in cats <==> k in CategoryKeys(data)
    ensures forall i, j :: 0 <= i < j < |cats| ==> cats[i] != cats[j]
  {
    cats := [];
    var i := 0;
    while i < |data|
      invariant 0 <= i <= |data|
      invariant forall k :: k in cats <==> k in CategoryKeys(data[..i])
      invariant forall a, b :: 0 <= a < b < |cats| ==> cats[a] != cats[b]
    {
      var levelData := data[i].1;
      cats := AddKeys(cats, CategoryOf(levelData, "Passage"));
      cats := AddKeys(cats, CategoryOf(levelData, "Runes"));
      assert data[..i + 1][..i] == data[..i];
      i := i + 1;
    }
    assert data[..i] == data;
  }

  /** The index of the first of `levels` without a tile config at or after `i` (`|levels|` when there is none). */
  function FirstMissing(levels: seq<string>, configs: map<string, TileConfig>, i: nat): (n: nat)
    requires i <= |levels|
    ensures i <= n <= |levels|
    ensures forall t :: i <= t < n ==> levels[t] in configs
    ensures n < |levels| ==> levels[n] !in configs
    decreases |levels| - i
  {
    if i == |levels| || levels[i] !in configs then i else FirstMissing(levels, configs, i + 1)
  }

  /** The first missing config is the first level, from `i` on, whose config is missing. */
  lemma {:induction false} FirstMissingAt(levels: seq<string>, configs: map<string, TileConfig>, i: nat, n: nat)
    requires i <= n <= |levels| && (n < |levels| ==> levels[n] !in configs)
    requires forall t :: i <= t < n ==> levels[t] in configs
    ensures FirstMissing(levels, configs, i) == n
    decreases n - i
  {
    if i < n {
      FirstMissingAt(levels, configs, i + 1, n);
    }
  }

  /** Every level has a config exactly when none is missing. */
  lemma NoneMissing(levels: seq<string>, configs: map<string, TileConfig>)
    ensures FirstMissing(levels, configs, 0) == |levels| <==> forall l :: l in levels ==> l in configs
  {
    var n := FirstMissing(levels, configs, 0);
    if n < |levels| {
      assert levels[n] in levels;
    }
  }

  /** The level names are distinct, so each level gets its own cache entry. */
  lemma LevelsDistinct()
    ensures forall i, j :: 0 <= i < j < |Levels| ==> Levels[i] != Levels[j]
  {
    forall i, j | 0 <= i < j < |Levels| ensures Levels[i] != Levels[j] {
      assert |Levels[i]| != |Levels[j]| || Levels[i][6] != Levels[j][6];
    }
  }

  class MapManager {
    /** The locations data the manager was constructed with. */
    const locationsData: LocationsData
    /** The icon registry markers are drawn from: `AVAILABLE_ICONS`. */
    const icons: Registry
    /** The levels `loadAllMapLayers` loads, in order: `Levels`. */
    const levels: seq<string>
    /** Whether the Leaflet map and its markers layer exist (`map` and `markersLayer` non-null). */
    var mapReady: bool
    /** The map's current (integer) zoom level. */
    var zoom: int
    var currentLevel: string
    var hiddenCategories: set<string>
    /** The per-level layer cache. */
    var mapLayers: map<string, Layer>
    /** The levels whose cached layer is on the map. */
    var attached: set<string>
    /** The bounds the map was last fitted to. */
    var viewBounds: Option<Rect>
    var isLoadingMap: bool
    /** The markers in the markers layer, in the order they were added. */
    var markers: seq<Marker>

    ghost predicate Valid()
      reads this
    {
      |levels| > 0 && (forall i, j :: 0 <= i < j < |levels| ==> levels[i] != levels[j]) &&
      attached <= mapLayers.Keys &&
      (!mapReady ==> attached == {} && markers == [])
    }

    /** The markers `updateMarkers` would show now. */
    ghost function ExpectedMarkers(): seq<Marker>
      reads this
    {
      MarkersFor(icons, locationsData, currentLevel, hiddenCategories, MarkerSize(true, zoom))
    }

    constructor(data: LocationsData)
      ensures Valid()
      ensures locationsData == data && icons == AvailableIcons && levels == Levels && !mapReady && currentLevel == "Level 1"
      ensures hiddenCategories == {} && mapLayers == map[] && attached == {}
      ensures viewBounds.None? && !isLoadingMap && markers == []
    {
      locationsData := data;
      icons := AvailableIcons;
      levels := Levels;
      LevelsDistinct();
      mapReady := false;
      zoom := 0;
      currentLevel := "Level 1";
      hiddenCategories := {};
      mapLayers := map[];
      attached := {};
      viewBounds := None;
      isLoadingMap := false;
      markers := [];
    }

    /**
     * `updateMarkers`: without a map nothing happens; otherwise the markers
     * layer is cleared and refilled with the current level's Passage and
     * Runes markers at the current marker size (none when the data has no
     * such level).
     */
    method UpdateMarkers()
      requires Valid()
      modifies this`markers
      ensures Valid()
      ensures !mapReady ==> markers == old(markers)
      ensures mapReady ==> markers == ExpectedMarkers()
    {
      if !mapReady {
        return;
      }
      markers := [];
      var levelData := Get(locationsData, currentLevel);
      if levelData.None? {
        return;
      }
      var ld := levelData.value;
      var size := MarkerSize(true, zoom);
      var ms := AppendSubcategoryMarkers(icons, "Passage", CategoryOf(ld, "Passage"), hiddenCategories, size, []);
      assert ms == SubcategoryMarkers(icons, "Passage", CategoryOf(ld, "Passage"), hiddenCategories, size);
      ms := AppendSubcategoryMarkers(icons, "Runes", CategoryOf(ld, "Runes"), hiddenCategories, size, ms);
      assert ms == LevelMarkers(icons, ld, hiddenCategories, size);
      markers := ms;
    }

    /**
     * One pass of the level loop of `loadAllMapLayers`: build the level's
     * layer from its tile range, cache it with its view bounds, and put it on
     * the map (fitting the map to it) when it is the first layer. The map
     * has no view yet at that point, so Leaflet applies the zoom that fits
     * the bounds at once; that zoom, which depends on the viewport, is the
     * parameter `fittedZoom`.
     */
    method CacheLevelLayer(level: string, config: TileConfig, firstLayer: bool, fittedZoom: int)
      requires attached <= mapLayers.Keys
      modifies this`mapLayers, this`attached, this`viewBounds, this`zoom
      ensures attached <= mapLayers.Keys
      ensures mapLayers == old(mapLayers)[level := LayerFor(config)]
      ensures attached == if firstLayer then old(attached) + {level} else old(attached)
      ensures viewBounds == if firstLayer then Some(ViewBounds(config)) else old(viewBounds)
      ensures zoom == if firstLayer then fittedZoom else old(zoom)
    {
      var overlays := BuildTileLayer(config);
      var bounds := ViewBounds(config);
      mapLayers := mapLayers[level := Layer(overlays, bounds)];
      if firstLayer {
        attached := attached + {level};
        viewBounds := Some(bounds);
        zoom := fittedZoom;
      }
    }

    /**
     * The level loop of `loadAllMapLayers`, up to the first level whose tile
     * config cannot be fetched (where the source throws): `n` levels are
     * built and cached, and the first one is put on the map and fitted to,
     * at zoom `fittedZoom`.
     */
    method LoadLevels(levels: seq<string>, configs: map<string, TileConfig>, fittedZoom: int) returns (n: nat)
      requires forall i, j :: 0 <= i < j < |levels| ==> levels[i] != levels[j]
      requires attached <= mapLayers.Keys
      modifies this`mapLayers, this`attached, this`viewBounds, this`zoom
      ensures attached <= mapLayers.Keys
      ensures n == FirstMissing(levels, configs, 0)
      ensures forall l :: l in mapLayers <==> l in old(mapLayers) || l in levels[..n]
      ensures forall t :: 0 <= t < n ==> mapLayers[levels[t]] == LayerFor(configs[levels[t]])
      ensures forall l :: l in old(mapLayers) && l !in levels[..n] ==> mapLayers[l] == old(mapLayers)[l]
      ensures attached == old(attached) + (if n > 0 then {levels[0]} else {})
      ensures viewBounds == if n > 0 then Some(ViewBounds(configs[levels[0]])) else old(viewBounds)
      ensures zoom == if n > 0 then fittedZoom else old(zoom)
    {
      var firstLayer := true;
      var i := 0;
      while i < |levels| && levels[i] in configs
        invariant 0 <= i <= |levels|
        invariant attached <= mapLayers.Keys
        invariant firstLayer <==> i == 0
        invariant CachedUpTo(mapLayers, old(mapLayers), levels, configs, i)
        invariant attached == old(attached) + (if i > 0 then {levels[0]} else {})
        invariant viewBounds == (if i > 0 then Some(ViewBounds(configs[levels[0]])) else old(viewBounds))
        invariant zoom == if i > 0 then fittedZoom else old(zoom)
      {
        var level := levels[i];
        CacheNextLevel(mapLayers, old(mapLayers), levels, configs, i);
        CacheLevelLayer(level, configs[level], firstLayer, fittedZoom);
        firstLayer := false;
        i := i + 1;
      }
      FirstMissingAt(levels, configs, 0, i);
      n := i;
    }

    /**
     * `loadAllMapLayers` with the fetched tile configs as a map (a missing
     * level stands for a failed fetch, which ends the load with an error).
     * Each level's layer is built from its tile range and cached; only the
     * first level's layer is put on the map and fitted to (at the zoom
     * `fittedZoom` that fitting picks), so markers are sized for that zoom;
     * markers are
     * rebuilt only when every level loaded. The loading flag is set for the
     * whole load and cleared afterwards, on success and on error alike.
     */
    method LoadAllMapLayers(configs: map<string, TileConfig>, fittedZoom: int) returns (ok: bool)
      requires Valid()
      modifies this
      ensures Valid()
      ensures !old(mapReady) ==> ok && unchanged(this)
      ensures old(mapReady) ==> !isLoadingMap && mapReady
      ensures old(mapReady) ==> (ok <==> forall l :: l in levels ==> l in configs)
      ensures old(mapReady) ==> var n := FirstMissing(levels, configs, 0);
        && (forall l :: l in mapLayers <==> l in old(mapLayers) || l in levels[..n])
        && (forall t :: 0 <= t < n ==> mapLayers[levels[t]] == LayerFor(configs[levels[t]]))
        && (forall l :: l in old(mapLayers) && l !in levels[..n] ==> mapLayers[l] == old(mapLayers)[l])
        && attached == old(attached) + (if n > 0 then {levels[0]} else {})
        && viewBounds == (if n > 0 then Some(ViewBounds(configs[levels[0]])) else old(viewBounds))
        && zoom == (if n > 0 then fittedZoom else old(zoom))
      ensures old(mapReady) ==> markers == if ok then ExpectedMarkers() else old(markers)
      ensures currentLevel == old(currentLevel) && hiddenCategories == old(hiddenCategories)
    {
      if !mapReady {
        ok := true;
        return;
      }
      isLoadingMap := true;
      var n := LoadLevels(levels, configs, fittedZoom);
      NoneMissing(levels, configs);
      ok := n == |levels|;
      if ok {
        UpdateMarkers();
      }
      isLoadingMap := false;
    }

    /**
     * `loadMapLayer(level)`: ignored without a map or while the layers load;
     * otherwise every cached layer is taken off the map except the one cached
     * under `level`, which is put on it and fitted to, and the markers are
     * rebuilt for the current level.
     */
    method LoadMapLayer(level: string)
      requires Valid()
      modifies this`attached, this`viewBounds, this`markers
      ensures Valid()
      ensures !old(mapReady) || old(isLoadingMap) ==> unchanged(this)
      ensures old(mapReady) && !old(isLoadingMap) ==>
        && (forall l :: l in attached <==> l in mapLayers && l == level)
        && viewBounds == (if level in mapLayers then Some(mapLayers[level].bounds) else old(viewBounds))
        && markers == ExpectedMarkers()
    {
      if !mapReady || isLoadingMap {
        return;
      }
      var pending := mapLayers.Keys;
      while pending != {}
        invariant pending <= mapLayers.Keys && attached <= mapLayers.Keys
        invariant forall l :: l in attached <==>
          (l in pending && l in old(attached)) || (l in mapLayers && l !in pending && l == level)
        invariant viewBounds == if level in mapLayers && level !in pending then Some(mapLayers[level].bounds) else old(viewBounds)
        decreases pending
      {
        var layerLevel :| layerLevel in pending;
        if layerLevel == level {
          attached := attached + {layerLevel};
          viewBounds := Some(mapLayers[layerLevel].bounds);
        } else {
          attached := attached - {layerLevel};
        }
        pending := pending - {layerLevel};
      }
      markers := [];
      UpdateMarkers();
    }

    /**
     * `setLevel(level)`: ignored while the layers load; otherwise the level
     * becomes current and its layer is shown as `loadMapLayer` does.
     */
    method SetLevel(level: string)
      requires Valid()
      modifies this`currentLevel, this`attached, this`viewBounds, this`markers
      ensures Valid()
      ensures old(isLoadingMap) ==> unchanged(this)
      ensures !old(isLoadingMap) ==> currentLevel == level
      ensures !old(isLoadingMap) && !mapReady ==> attached == old(attached) && viewBounds == old(viewBounds) && markers == old(markers)
      ensures !old(isLoadingMap) && mapReady ==>
        && (forall l :: l in attached <==> l in mapLayers && l == level)
        && viewBounds == (if level in mapLayers then Some(mapLayers[level].bounds) else old(viewBounds))
        && markers == ExpectedMarkers()
    {
      if isLoadingMap {
        return;
      }
      currentLevel := level;
      LoadMapLayer(level);
    }

    /** `isCategoryVisible(name)`: whether markers of the category are shown. */
    function IsCategoryVisible(name: string): (r: bool)
      reads this
      ensures r <==> name !in hiddenCategories
    {
      name !in hiddenCategories
    }

    /**
     * `toggleCategory(name)`: the category's visibility flips, every other
     * category keeps its visibility, and the markers are rebuilt.
     */
    method ToggleCategory(name: string)
      requires Valid()
      modifies this`hiddenCategories, this`markers
      ensures Valid()
      ensures hiddenCategories == Toggle(old(hiddenCategories), name)
      ensures IsCategoryVisible(name) == !old(IsCategoryVisible(name))
      ensures forall x :: x != name ==> IsCategoryVisible(x) == old(IsCategoryVisible(x))
      ensures markers == if mapReady then ExpectedMarkers() else old(markers)
    {
      hiddenCategories := Toggle(hiddenCategories, name);
      UpdateMarkers();
    }

    /** `showAllCategories`: no category is hidden any more, and the markers are rebuilt. */
    method ShowAllCategories()
      requires Valid()
      modifies this`hiddenCategories, this`markers
      ensures Valid()
      ensures forall x :: IsCategoryVisible(x)
      ensures markers == if mapReady then ExpectedMarkers() else old(markers)
    {
      hiddenCategories := {};
      UpdateMarkers();
    }

    /**
     * `hideAllCategories`: every raw Passage and Runes subcategory key of
     * every level is added to the hidden set (which keeps what it held), and
     * the markers are rebuilt.
     */
    method HideAllCategories()
      requires Valid()
      modifies this`hiddenCategories, this`markers
      ensures Valid()
      ensures hiddenCategories == old(hiddenCategories) + CategoryKeys(locationsData)
      ensures markers == if mapReady then ExpectedMarkers() else old(markers)
    {
      var categories := GetAllCategories(locationsData);
      var i := 0;
      while i < |categories|
        invariant 0 <= i <= |categories|
        invariant forall k :: k in hiddenCategories <==> k in old(hiddenCategories) || k in categories[..i]
        invariant markers == old(markers)
      {
        assert categories[..i + 1] == categories[..i] + [categories[i]];
        hiddenCategories := hiddenCategories + {categories[i]};
        i := i + 1;
      }
      assert categories[..i] == categories;
      UpdateMarkers();
    }

    /**
     * The `zoomend` handler after the map settles on zoom `newZoom` (without
     * a map there is no handler). Every marker with a non-empty category is
     * resized to the new marker size times the location's own scale
     * percentage (100 when it has none), keeping its image or colour; the
     * markers are not rebuilt.
     */
    method ZoomEnd(newZoom: int)
      requires Valid()
      modifies this`zoom, this`markers
      ensures Valid()
      ensures !old(mapReady) ==> unchanged(this)
      ensures old(mapReady) ==> zoom == newZoom && |markers| == |old(markers)|
      ensures old(mapReady) ==> forall k :: 0 <= k < |markers| ==>
        markers[k] == RescaleMarker(old(markers)[k], MarkerSize(true, newZoom))
    {
      if !mapReady {
        return;
      }
      zoom := newZoom;
      var currentSize := MarkerSize(true, zoom);
      var i := 0;
      while i < |markers|
        invariant 0 <= i <= |markers| && |markers| == |old(markers)| && zoom == newZoom
        invariant forall k :: 0 <= k < i ==> markers[k] == RescaleMarker(old(markers)[k], currentSize)
        invariant forall k :: i <= k < |markers| ==> markers[k] == old(markers)[k]
      {
        markers := markers[i := RescaleMarker(markers[i], currentSize)];
        i := i + 1;
      }
    }

    /**
     * The teardown at the start of `initialize`: an existing map is removed
     * together with its markers layer, and the layer cache is emptied.
     */
    method TearDown()
      requires Valid()
      modifies this`mapReady, this`markers, this`attached, this`mapLayers
      ensures Valid() && !mapReady
      ensures mapLayers == if old(mapReady) then map[] else old(mapLayers)
    {
      if mapReady {
        mapReady := false;
        markers := [];
        attached := {};
        mapLayers := map[];
      }
    }

    /**
     * `initialize` with the outcome of the cloud configuration fetch as a
     * flag and the tile configs as a map: an existing map is torn down; a
     * failed configuration fetch ends with an error before a new map exists;
     * otherwise a fresh map with an empty markers layer is created and all
     * layers are loaded, the first one fitted to at zoom `fittedZoom`.
     */
    method Initialize(cloudConfigOk: bool, configs: map<string, TileConfig>, fittedZoom: int) returns (ok: bool)
      requires Valid()
      modifies this
      ensures Valid()
      ensures ok <==> cloudConfigOk && forall l :: l in levels ==> l in configs
      ensures !cloudConfigOk ==>
        !mapReady && markers == [] && attached == {} && mapLayers == (if old(mapReady) then map[] else old(mapLayers))
      ensures cloudConfigOk ==> mapReady && !isLoadingMap
      ensures ok ==> zoom == fittedZoom && markers == ExpectedMarkers()
      ensures ok ==> attached == {levels[0]} && viewBounds == Some(ViewBounds(configs[levels[0]]))
      ensures ok ==> forall t :: 0 <= t < |levels| ==> levels[t] in mapLayers && mapLayers[levels[t]] == LayerFor(configs[levels[t]])
      ensures currentLevel == old(currentLevel) && hiddenCategories == old(hiddenCategories)
    {
      TearDown();
      if !cloudConfigOk {
        ok := false;
        return;
      }
      mapReady := true;
      ok := LoadAllMapLayers(configs, fittedZoom);
      if ok {
        assert levels[..|levels|] == levels;
      }
    }
  }
}
