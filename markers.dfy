/**
 * Marker construction in the map (the pure parts of `MapManager`): category
 * name normalisation, the zoom-dependent base marker size, icon selection and
 * sizing, the markers a level shows for a set of hidden categories, the
 * category names "hide all" collects, and the zoom-end icon rescale.
 */
module Markers {
  import opened Wrappers
  import opened Types

  // ---------------------------------------------------------------------
  // Category names

  function UpperChar(ch: char): (r: char)
    ensures 'a' <= ch <= 'z' ==> 'A' <= r <= 'Z' && r as int == ch as int - 32
    ensures !('a' <= ch <= 'z') ==> r == ch
  {
    if 'a' <= ch <= 'z' then (ch as int - 32) as char else ch
  }

  function LowerChar(ch: char): (r: char)
    ensures 'A' <= ch <= 'Z' ==> 'a' <= r <= 'z' && r as int == ch as int + 32
    ensures !('A' <= ch <= 'Z') ==> r == ch
  {
    if 'A' <= ch <= 'Z' then (ch as int + 32) as char else ch
  }

  /** `s.charAt(0).toUpperCase() + s.slice(1)`: the first letter upper-cased, the rest unchanged. */
  function Capitalise(s: string): (r: string)
    ensures |r| == |s|
    ensures forall i :: 1 <= i < |s| ==> r[i] == s[i]
    ensures r == s <==> (s == [] || !('a' <= s[0] <= 'z'))
    ensures r != [] ==> !('a' <= r[0] <= 'z')
  {
    if s == [] then [] else [UpperChar(s[0])] + s[1..]
  }

  /** Capitalising twice is capitalising once. */
  lemma CapitaliseIdempotent(s: string)
    ensures Capitalise(Capitalise(s)) == Capitalise(s)
  {
  }

  /** `s.toLowerCase()`. */
  function Lower(s: string): (r: string)
    ensures |r| == |s|
    ensures forall i :: 0 <= i < |s| ==> r[i] == LowerChar(s[i])
  {
    seq(|s|, i requires 0 <= i < |s| => LowerChar(s[i]))
  }

  // ---------------------------------------------------------------------
  // Base marker size

  /** 2 to the power `z`, for an integer zoom level. */
  function Pow2(z: int): (r: real)
    ensures r > 0.0
    decreases if z < 0 then -z else z
  {
    if z == 0 then 1.0
    else if z > 0 then 2.0 * Pow2(z - 1)
    else Pow2(z + 1) / 2.0
  }

  lemma {:induction false} Pow2Monotone(z: int, z': int)
    requires z <= z'
    ensures Pow2(z) <= Pow2(z')
    decreases z' - z
  {
    if z < z' {
      Pow2Monotone(z + 1, z');
      if z >= 0 {
        assert Pow2(z + 1) == 2.0 * Pow2(z);
      } else {
        assert Pow2(z) == Pow2(z + 1) / 2.0;
      }
    }
  }

  /**
   * `getMarkerSize`: 32 without a map, otherwise `32 * 2^zoom` clamped to
   * [16, 128]. The clamp bites exactly outside the zoom levels -1..2.
   */
  function MarkerSize(hasMap: bool, zoom: int): (r: real)
    ensures 16.0 <= r <= 128.0
    ensures !hasMap ==> r == 32.0
    ensures hasMap && -1 <= zoom <= 2 ==> r == 32.0 * Pow2(zoom)
    ensures hasMap && zoom <= -1 ==> r == 16.0
    ensures hasMap && zoom >= 2 ==> r == 128.0
  {
    if !hasMap then 32.0
    else
      var raw := 32.0 * Pow2(zoom);
      assert zoom <= -1 ==> raw <= 16.0 by {
        if zoom <= -1 { Pow2Monotone(zoom, -1); }
      }
      assert zoom >= 2 ==> raw >= 128.0 by {
        if zoom >= 2 { Pow2Monotone(2, zoom); }
      }
      assert -1 <= zoom <= 2 ==> 16.0 <= raw <= 128.0 by {
        if -1 <= zoom <= 2 { Pow2Monotone(-1, zoom); Pow2Monotone(zoom, 2); }
      }
      if raw < 16.0 then 16.0 else if raw > 128.0 then 128.0 else raw
  }

  // ---------------------------------------------------------------------
  // Icons

  /**
   * `Object.values(icons).find(config => config.path === path)`: the first
   * entry with that path, none when no entry has it.
   */
  function FindIcon(icons: Registry, path: string): (r: Option<IconConfig>)
    ensures r.Some? ==> r.value.path == path && exists i :: 0 <= i < |icons| && icons[i].1 == r.value
    ensures r.None? <==> forall i :: 0 <= i < |icons| ==> icons[i].1.path != path
  {
    if icons == [] then None
    else if icons[0].1.path == path then Some(icons[0].1)
    else
      var r := FindIcon(icons[1..], path);
      assert forall i :: 1 <= i < |icons| ==> icons[1..][i - 1] == icons[i];
      r
  }

  /** In a registry without repeated paths, looking up an entry's path finds that very entry. */
  lemma {:induction false} FindIconAt(icons: Registry, i: int)
    requires PathsDistinct(icons) && 0 <= i < |icons|
    ensures FindIcon(icons, icons[i].1.path) == Some(icons[i].1)
  {
    if i > 0 {
      assert icons[0].1.path != icons[i].1.path;
      assert icons[1..][i - 1] == icons[i];
      FindIconAt(icons[1..], i - 1);
    }
  }

  /**
   * `iconConfig?.scale || 100`: the scale of the entry with that path; 100
   * when there is none (or its scale is 0).
   */
  function RegistryScaleFor(icons: Registry, path: string): (r: int)
    ensures ScalesInRange(icons) ==> 100 <= r <= 300
    ensures FindIcon(icons, path).None? ==> r == 100
    ensures forall i :: 0 <= i < |icons| && icons[i].1.path == path && PathsDistinct(icons) ==>
      r == if icons[i].1.scale != 0 then icons[i].1.scale else 100
  {
    if FindIcon(icons, path).Some? && FindIcon(icons, path).value.scale != 0 then
      var config := FindIcon(icons, path).value;
      assert ScalesInRange(icons) ==> 100 <= config.scale <= 300 by {
        if ScalesInRange(icons) {
          var k :| 0 <= k < |icons| && icons[k].1 == config;
        }
      }
      assert forall i :: 0 <= i < |icons| && icons[i].1.path == path && PathsDistinct(icons) ==> icons[i].1 == config by {
        forall i | 0 <= i < |icons| && icons[i].1.path == path && PathsDistinct(icons) ensures icons[i].1 == config {
          FindIconAt(icons, i);
        }
      }
      config.scale
    else
      assert forall i :: 0 <= i < |icons| && icons[i].1.path == path && PathsDistinct(icons) ==>
        icons[i].1.scale == 0 by {
        forall i | 0 <= i < |icons| && icons[i].1.path == path && PathsDistinct(icons) ensures icons[i].1.scale == 0 {
          FindIconAt(icons, i);
        }
      }
      100
  }

  datatype IconArt = Image(path: string) | Square(color: string)

  /** A marker icon: what it shows and its side length in pixels. */
  datatype Icon = Icon(art: IconArt, size: real)

  /** The icon anchor: the centre of the square icon. */
  function Anchor(i: Icon): (a: (real, real))
    ensures a.0 == a.1 && a.0 + a.1 == i.size
  {
    (i.size / 2.0, i.size / 2.0)
  }

  /** `colors[mainCategory] || '#3498db'`: the fallback colour of a plain square icon. */
  function ColorFor(mainCategory: string): string
  {
    if mainCategory == "Passage" then "#e74c3c"
    else if mainCategory == "Runes" then "#f1c40f"
    else "#3498db"
  }

  /** The lower-cased `mainCategory/subCategory` key that selects a default icon. */
  function CategoryKey(mainCategory: string, subCategory: string): string
  {
    Lower(mainCategory + "/" + subCategory)
  }

  /** A base size scaled by a percentage between 100 and 300 stays between once and three times the base. */
  lemma ScaledWithin(size: real, pct: int)
    requires size > 0.0 && 100 <= pct <= 300
    ensures size <= size * pct as real / 100.0 <= 3.0 * size
  {
    var p := pct as real / 100.0;
    assert 1.0 <= p <= 3.0;
    assert size * p == size * pct as real / 100.0;
  }

  /** `size * scale / 100`: a base size scaled by a percentage. */
  function Scaled(size: real, pct: int): (r: real)
    ensures size > 0.0 && 100 <= pct <= 300 ==> size <= r <= 3.0 * size
    ensures pct == 100 ==> r == size
  {
    if size > 0.0 && 100 <= pct <= 300 then ScaledWithin(size, pct); size * pct as real / 100.0
    else size * pct as real / 100.0
  }

  /** Whether a location names its own icon (`location?.icon` is truthy). */
  predicate HasOwnIcon(loc: Location)
  {
    loc.icon.Some? && loc.icon.value != ""
  }

  /**
   * `createMarkerIcon`: the location's own icon, scaled by the scale of its
   * registry entry; else the stairs or yellow-gate icon for the passage
   * subcategories "stairs" and "portals" (compared lower-cased); else a
   * square of the base size coloured by main category.
   */
  function CreateMarkerIcon(icons: Registry, mainCategory: string, subCategory: string, loc: Location, size: real): Icon
  {
    if HasOwnIcon(loc) then
      Icon(Image(loc.icon.value), Scaled(size, RegistryScaleFor(icons, loc.icon.value)))
    else
      var categoryKey := CategoryKey(mainCategory, subCategory);
      if categoryKey == "passage/stairs" then
        Icon(Image(StairsIcon.path), Scaled(size, StairsIcon.scale))
      else if categoryKey == "passage/portals" then
        Icon(Image(GateYellowIcon.path), Scaled(size, GateYellowIcon.scale))
      else
        Icon(Square(ColorFor(mainCategory)), size)
  }

  /**
   * Which icon a location gets: its own image, scaled by its registry
   * entry's percentage (the base size when the registry has no entry for
   * it); without one, the stairs image at 250
   * percent, the yellow gate at 150 percent, or a square of the base size
   * in the main category's colour. With the registry's scales in [100, 300]
   * percent, every icon is between once and three times the base size.
   */
  lemma MarkerIconChoice(icons: Registry, mainCategory: string, subCategory: string, loc: Location, size: real)
    ensures var icon := CreateMarkerIcon(icons, mainCategory, subCategory, loc, size);
      && (ScalesInRange(icons) && size > 0.0 ==> size <= icon.size <= 3.0 * size)
      && (HasOwnIcon(loc) ==> icon.art == Image(loc.icon.value))
      && (HasOwnIcon(loc) ==> icon.size == Scaled(size, RegistryScaleFor(icons, loc.icon.value)))
      && (HasOwnIcon(loc) && FindIcon(icons, loc.icon.value).None? ==> icon.size == size)
      && (!HasOwnIcon(loc) && CategoryKey(mainCategory, subCategory) == "passage/stairs" ==>
            icon == Icon(Image("icons/Stairs.png"), size * 2.5))
      && (!HasOwnIcon(loc) && CategoryKey(mainCategory, subCategory) == "passage/portals" ==>
            icon == Icon(Image("icons/Gates_Yellow.png"), size * 1.5))
      && (icon.art.Square? <==>
            !HasOwnIcon(loc) && CategoryKey(mainCategory, subCategory) != "passage/stairs" &&
            CategoryKey(mainCategory, subCategory) != "passage/portals")
      && (icon.art.Square? ==> icon.size == size && icon.art.color == ColorFor(mainCategory))
  {
  }

  // ---------------------------------------------------------------------
  // Markers of a level

  datatype Marker = Marker(position: Point, location: Location, category: string, mainCategory: string, icon: Icon)

  /** One marker per coordinate of `loc`, all carrying the same icon. */
  function LocationMarkers(icons: Registry, mainCategory: string, category: string, loc: Location, size: real): (ms: seq<Marker>)
    ensures |ms| == |CoordinateList(loc.coordinates)|
    ensures forall k :: 0 <= k < |ms| ==>
      ms[k] == Marker(CoordinateList(loc.coordinates)[k], loc, category, mainCategory,
                      CreateMarkerIcon(icons, mainCategory, category, loc, size))
  {
    var points := CoordinateList(loc.coordinates);
    var icon := CreateMarkerIcon(icons, mainCategory, category, loc, size);
    seq(|points|, k requires 0 <= k < |points| => Marker(points[k], loc, category, mainCategory, icon))
  }

  /** A well-built marker stands on one of its location's points and carries the icon built for it. */
  predicate BuiltFor(icons: Registry, m: Marker, size: real)
  {
    m.position in CoordinateList(m.location.coordinates) &&
    m.icon == CreateMarkerIcon(icons, m.mainCategory, m.category, m.location, size)
  }

  /** The markers of a list of locations, in list order. */
  function LocationsMarkers(icons: Registry, mainCategory: string, category: string, locs: seq<Location>, size: real): seq<Marker>
  {
    if locs == [] then []
    else LocationsMarkers(icons, mainCategory, category, locs[..|locs| - 1], size) +
         LocationMarkers(icons, mainCategory, category, locs[|locs| - 1], size)
  }

  /** A marker of one location carries that location and is built for it. */
  lemma LocationMarkerSound(icons: Registry, mainCategory: string, category: string, loc: Location, size: real, m: Marker)
    requires m in LocationMarkers(icons, mainCategory, category, loc, size)
    ensures m.mainCategory == mainCategory && m.category == category && m.location == loc && BuiltFor(icons, m, size)
  {
    var last := LocationMarkers(icons, mainCategory, category, loc, size);
    var k :| 0 <= k < |last| && last[k] == m;
  }

  /** A marker of a list of locations belongs to one of them and is built for it. */
  lemma {:induction false} LocationsMarkerSound(icons: Registry, mainCategory: string, category: string,
                                                locs: seq<Location>, size: real, m: Marker)
    requires m in LocationsMarkers(icons, mainCategory, category, locs, size)
    ensures m.mainCategory == mainCategory && m.category == category && m.location in locs && BuiltFor(icons, m, size)
  {
    var n := |locs| - 1;
    if m in LocationsMarkers(icons, mainCategory, category, locs[..n], size) {
      LocationsMarkerSound(icons, mainCategory, category, locs[..n], size, m);
      assert m.location in locs[..n];
    } else {
      LocationMarkerSound(icons, mainCategory, category, locs[n], size, m);
    }
  }

  /** Every marker of a list of locations belongs to one of them and is built for it. */
  lemma LocationsMarkersSound(icons: Registry, mainCategory: string, category: string,
                              locs: seq<Location>, size: real)
    ensures forall m :: m in LocationsMarkers(icons, mainCategory, category, locs, size) ==>
      m.mainCategory == mainCategory && m.category == category && m.location in locs && BuiltFor(icons, m, size)
  {
    forall m | m in LocationsMarkers(icons, mainCategory, category, locs, size)
      ensures m.mainCategory == mainCategory && m.category == category && m.location in locs && BuiltFor(icons, m, size)
    {
      LocationsMarkerSound(icons, mainCategory, category, locs, size, m);
    }
  }

  /**
   * The markers of one main category: for every subcategory whose
   * capitalised name is not hidden, every coordinate of every location, in
   * key order.
   */
  function SubcategoryMarkers(icons: Registry, mainCategory: string, cd: CategoryData, hidden: set<string>, size: real): seq<Marker>
  {
    if cd == [] then []
    else
      var (key, locs) := cd[|cd| - 1];
      var categoryName := Capitalise(key);
      SubcategoryMarkers(icons, mainCategory, cd[..|cd| - 1], hidden, size) +
      (if categoryName in hidden then [] else LocationsMarkers(icons, mainCategory, categoryName, locs, size))
  }

  /**
   * Every marker of a main category belongs to a subcategory whose
   * capitalised name is not hidden, to one of its locations, and is built
   * for it.
   */
  lemma {:induction false} SubcategoryMarkersSound(icons: Registry, mainCategory: string, cd: CategoryData,
                                                   hidden: set<string>, size: real)
    ensures forall m :: m in SubcategoryMarkers(icons, mainCategory, cd, hidden, size) ==>
      m.mainCategory == mainCategory && m.category !in hidden && BuiltFor(icons, m, size) &&
      exists i :: 0 <= i < |cd| && m.category == Capitalise(cd[i].0) && m.location in cd[i].1
  {
    if cd != [] {
      var n := |cd| - 1;
      SubcategoryMarkersSound(icons, mainCategory, cd[..n], hidden, size);
      assert forall i :: 0 <= i < n ==> cd[..n][i] == cd[i];
      var name := Capitalise(cd[n].0);
      if name !in hidden {
        LocationsMarkersSound(icons, mainCategory, name, cd[n].1, size);
      }
    }
  }

  /** The subcategories of main category `name` of a level (none when the level has no such key). */
  function CategoryOf(ld: LevelData, name: string): CategoryData
  {
    Get(ld, name).GetOr([])
  }

  /** The markers `updateMarkers` adds for a level: its Passage markers, then its Runes markers. */
  function LevelMarkers(icons: Registry, ld: LevelData, hidden: set<string>, size: real): seq<Marker>
  {
    SubcategoryMarkers(icons, "Passage", CategoryOf(ld, "Passage"), hidden, size) +
    SubcategoryMarkers(icons, "Runes", CategoryOf(ld, "Runes"), hidden, size)
  }

  /** The markers of level `level` of the data; none when the data has no such level. */
  function MarkersFor(icons: Registry, data: LocationsData, level: string, hidden: set<string>, size: real): (ms: seq<Marker>)
    ensures Get(data, level).None? ==> ms == []
  {
    match Get(data, level)
    case Some(ld) => LevelMarkers(icons, ld, hidden, size)
    case None => []
  }

  /**
   * Every marker shown for a level is a Passage or Runes marker of a
   * subcategory whose capitalised name is not hidden, built for its location;
   * other main categories show nothing.
   */
  lemma MarkersForSound(icons: Registry, data: LocationsData, level: string, hidden: set<string>, size: real)
    ensures forall m :: m in MarkersFor(icons, data, level, hidden, size) ==>
      (m.mainCategory == "Passage" || m.mainCategory == "Runes") && m.category !in hidden && BuiltFor(icons, m, size)
  {
    if Get(data, level).Some? {
      var ld := Get(data, level).value;
      SubcategoryMarkersSound(icons, "Passage", CategoryOf(ld, "Passage"), hidden, size);
      SubcategoryMarkersSound(icons, "Runes", CategoryOf(ld, "Runes"), hidden, size);
    }
  }

  /** Every coordinate of every listed location gets its marker. */
  lemma {:induction false} LocationsMarkersComplete(icons: Registry, mainCategory: string, category: string,
                                                    locs: seq<Location>, size: real, j: int, k: int)
    requires 0 <= j < |locs| && 0 <= k < |CoordinateList(locs[j].coordinates)|
    ensures Marker(CoordinateList(locs[j].coordinates)[k], locs[j], category, mainCategory,
                   CreateMarkerIcon(icons, mainCategory, category, locs[j], size))
            in LocationsMarkers(icons, mainCategory, category, locs, size)
  {
    var last := LocationMarkers(icons, mainCategory, category, locs[j], size);
    assert last[k] in last;
    LocationMarkersIncluded(icons, mainCategory, category, locs, size, j, last[k]);
  }

  /** The markers of one listed location are among the markers of the list. */
  lemma {:induction false} LocationMarkersIncluded(icons: Registry, mainCategory: string, category: string,
                                                   locs: seq<Location>, size: real, j: int, m: Marker)
    requires 0 <= j < |locs| && m in LocationMarkers(icons, mainCategory, category, locs[j], size)
    ensures m in LocationsMarkers(icons, mainCategory, category, locs, size)
  {
    var n := |locs| - 1;
    if j < n {
      var front := locs[..n];
      assert front[j] == locs[j];
      LocationMarkersIncluded(icons, mainCategory, category, front, size, j, m);
    }
  }

  /**
   * Every coordinate of every location of a visible subcategory gets its
   * marker, carrying the capitalised subcategory name and its icon.
   */
  lemma {:induction false} VisibleLocationHasMarker(icons: Registry, mainCategory: string, cd: CategoryData,
                                                    hidden: set<string>, size: real, i: int, j: int, k: int)
    requires 0 <= i < |cd| && Capitalise(cd[i].0) !in hidden
    requires 0 <= j < |cd[i].1| && 0 <= k < |CoordinateList(cd[i].1[j].coordinates)|
    ensures var loc := cd[i].1[j];
      Marker(CoordinateList(loc.coordinates)[k], loc, Capitalise(cd[i].0), mainCategory,
             CreateMarkerIcon(icons, mainCategory, Capitalise(cd[i].0), loc, size))
      in SubcategoryMarkers(icons, mainCategory, cd, hidden, size)
  {
    LocationsMarkersComplete(icons, mainCategory, Capitalise(cd[i].0), cd[i].1, size, j, k);
    var loc := cd[i].1[j];
    VisibleSubcategoryIncluded(icons, mainCategory, cd, hidden, size, i,
      Marker(CoordinateList(loc.coordinates)[k], loc, Capitalise(cd[i].0), mainCategory,
             CreateMarkerIcon(icons, mainCategory, Capitalise(cd[i].0), loc, size)));
  }

  /** The markers of a visible subcategory's locations are among the main category's markers. */
  lemma {:induction false} VisibleSubcategoryIncluded(icons: Registry, mainCategory: string, cd: CategoryData,
                                                      hidden: set<string>, size: real, i: int, m: Marker)
    requires 0 <= i < |cd| && Capitalise(cd[i].0) !in hidden
    requires m in LocationsMarkers(icons, mainCategory, Capitalise(cd[i].0), cd[i].1, size)
    ensures m in SubcategoryMarkers(icons, mainCategory, cd, hidden, size)
  {
    var n := |cd| - 1;
    if i < n {
      var front := cd[..n];
      assert front[i] == cd[i];
      VisibleSubcategoryIncluded(icons, mainCategory, front, hidden, size, i, m);
      SubcategoryMarkersGrow(icons, mainCategory, cd, hidden, size, m);
    } else {
      LastSubcategoryMarkers(icons, mainCategory, cd, hidden, size, m);
    }
  }

  /** Dropping the last subcategory keeps a prefix of the markers. */
  lemma SubcategoryMarkersGrow(icons: Registry, mainCategory: string, cd: CategoryData, hidden: set<string>, size: real, m: Marker)
    requires cd != [] && m in SubcategoryMarkers(icons, mainCategory, cd[..|cd| - 1], hidden, size)
    ensures m in SubcategoryMarkers(icons, mainCategory, cd, hidden, size)
  {
  }

  /** A visible last subcategory contributes all its location markers. */
  lemma LastSubcategoryMarkers(icons: Registry, mainCategory: string, cd: CategoryData, hidden: set<string>, size: real, m: Marker)
    requires cd != [] && Capitalise(cd[|cd| - 1].0) !in hidden
    requires m in LocationsMarkers(icons, mainCategory, Capitalise(cd[|cd| - 1].0), cd[|cd| - 1].1, size)
    ensures m in SubcategoryMarkers(icons, mainCategory, cd, hidden, size)
  {
  }

  /** When the capitalised name of every subcategory is hidden, a main category shows no marker. */
  lemma {:induction false} AllHiddenNoMarkers(icons: Registry, mainCategory: string, cd: CategoryData, hidden: set<string>, size: real)
    requires forall i :: 0 <= i < |cd| ==> Capitalise(cd[i].0) in hidden
    ensures SubcategoryMarkers(icons, mainCategory, cd, hidden, size) == []
  {
    if cd != [] {
      var n := |cd| - 1;
      assert forall i :: 0 <= i < n ==> cd[..n][i] == cd[i];
      AllHiddenNoMarkers(icons, mainCategory, cd[..n], hidden, size);
    }
  }

  /**
   * With the registry's scales in [100, 300] percent, every marker's icon is
   * between 16 and 384 pixels: base size in [16, 128], at most tripled.
   */
  lemma MarkerIconSizes(icons: Registry, data: LocationsData, level: string, hidden: set<string>, hasMap: bool, zoom: int)
    requires ScalesInRange(icons)
    ensures forall m :: m in MarkersFor(icons, data, level, hidden, MarkerSize(hasMap, zoom)) ==> 16.0 <= m.icon.size <= 384.0
  {
    var size := MarkerSize(hasMap, zoom);
    MarkersForSound(icons, data, level, hidden, size);
    forall m | m in MarkersFor(icons, data, level, hidden, size) ensures 16.0 <= m.icon.size <= 384.0 {
      MarkerIconChoice(icons, m.mainCategory, m.category, m.location, size);
    }
  }

  // ---------------------------------------------------------------------
  // Hide all

  /** The raw Passage and Runes subcategory keys of one level. */
  function LevelCategoryKeys(ld: LevelData): set<string>
  {
    Keys(CategoryOf(ld, "Passage")) + Keys(CategoryOf(ld, "Runes"))
  }

  /** `getAllCategories` as a set: the raw Passage and Runes subcategory keys of every level. */
  function CategoryKeys(data: LocationsData): set<string>
  {
    if data == [] then {} else CategoryKeys(data[..|data| - 1]) + LevelCategoryKeys(data[|data| - 1].1)
  }

  /** Every level's Passage and Runes subcategory keys are collected. */
  lemma {:induction false} CategoryKeysComplete(data: LocationsData, i: int)
    requires 0 <= i < |data|
    ensures LevelCategoryKeys(data[i].1) <= CategoryKeys(data)
  {
    var n := |data| - 1;
    if i < n {
      CategoryKeysComplete(data[..n], i);
      assert data[..n][i] == data[i];
    }
  }

  /** Only keys found on some level are collected. */
  lemma {:induction false} CategoryKeysSound(data: LocationsData, k: string) returns (i: int)
    requires k in CategoryKeys(data)
    ensures 0 <= i < |data| && k in LevelCategoryKeys(data[i].1)
  {
    var n := |data| - 1;
    if k in LevelCategoryKeys(data[n].1) {
      i := n;
    } else {
      i := CategoryKeysSound(data[..n], k);
      assert data[..n][i] == data[i];
    }
  }

  /**
   * Hiding every collected key hides all markers of a level whose
   * subcategory keys are already capitalised.
   */
  lemma HideAllHidesCapitalisedKeys(icons: Registry, data: LocationsData, level: string, ld: LevelData,
                                    hidden: set<string>, size: real)
    requires Get(data, level) == Some(ld)
    requires forall k :: k in LevelCategoryKeys(ld) ==> Capitalise(k) == k
    ensures MarkersFor(icons, data, level, hidden + CategoryKeys(data), size) == []
  {
    var h := hidden + CategoryKeys(data);
    var j :| 0 <= j < |data| && data[j] == (level, ld);
    CategoryKeysComplete(data, j);
    CapitalisedKeysHidden(icons, "Passage", CategoryOf(ld, "Passage"), h, size);
    CapitalisedKeysHidden(icons, "Runes", CategoryOf(ld, "Runes"), h, size);
  }

  /** A main category whose keys are all capitalised and hidden shows no marker. */
  lemma CapitalisedKeysHidden(icons: Registry, mainCategory: string, cd: CategoryData, hidden: set<string>, size: real)
    requires forall k :: k in Keys(cd) ==> Capitalise(k) == k && k in hidden
    ensures SubcategoryMarkers(icons, mainCategory, cd, hidden, size) == []
  {
    forall i | 0 <= i < |cd| ensures Capitalise(cd[i].0) in hidden {
      assert cd[i].0 in Keys(cd);
    }
    AllHiddenNoMarkers(icons, mainCategory, cd, hidden, size);
  }

  /**
   * The mismatch between `getAllCategories` (raw keys) and `updateMarkers`
   * (capitalised keys): a Passage subcategory whose key starts with a
   * lower-case letter, with no capitalised twin among the collected keys,
   * still shows its markers after "hide all".
   */
  lemma HideAllMissesLowercaseKeys(icons: Registry, data: LocationsData, level: string, ld: LevelData,
                                   hidden: set<string>, size: real, i: int)
    requires Get(data, level) == Some(ld)
    requires 0 <= i < |CategoryOf(ld, "Passage")|
    requires var key := CategoryOf(ld, "Passage")[i].0;
      Capitalise(key) !in hidden && Capitalise(key) !in CategoryKeys(data)
    requires |CategoryOf(ld, "Passage")[i].1| > 0 && |CoordinateList(CategoryOf(ld, "Passage")[i].1[0].coordinates)| > 0
    ensures MarkersFor(icons, data, level, hidden + CategoryKeys(data), size) != []
  {
    var h := hidden + CategoryKeys(data);
    VisibleLocationHasMarker(icons, "Passage", CategoryOf(ld, "Passage"), h, size, i, 0, 0);
  }

  // ---------------------------------------------------------------------
  // Zoom end

  /**
   * The zoom-end handler's resize of one marker: base size times the
   * location's own `scale || 100`, only for markers with a non-empty
   * category and main category; the icon art is kept.
   */
  function RescaleMarker(m: Marker, size: real): (r: Marker)
    ensures r.position == m.position && r.location == m.location && r.category == m.category
    ensures r.mainCategory == m.mainCategory && r.icon.art == m.icon.art
    ensures m.category != "" && m.mainCategory != "" ==> r.icon.size == size * ScaleOr100(m.location.scale) / 100.0
    ensures m.category == "" || m.mainCategory == "" ==> r == m
  {
    if m.category != "" && m.mainCategory != "" then
      m.(icon := Icon(m.icon.art, size * ScaleOr100(m.location.scale) / 100.0))
    else m
  }

  /** A positive size scaled by a percentage keeps its value exactly when the percentage is 100. */
  lemma ScaledUnchangedIff(size: real, pct: int)
    requires size > 0.0
    ensures Scaled(size, pct) == size <==> pct == 100
  {
    if Scaled(size, pct) == size {
      assert size * (pct as real / 100.0 - 1.0) == 0.0;
    }
  }

  /**
   * Building and zoom-end resizing disagree: a marker whose location names a
   * registry icon and has no `scale` of its own is built at the registry
   * scale but resized to 100 percent, so a zoom that ends on the same level
   * changes its size exactly when the registry scale is not 100.
   */
  lemma RescaleIgnoresRegistryScale(icons: Registry, mainCategory: string, category: string, loc: Location, size: real, i: int)
    requires ScalesInRange(icons) && PathsDistinct(icons) && 0 <= i < |icons|
    requires loc.icon == Some(icons[i].1.path) && icons[i].1.path != "" && loc.scale.None?
    requires category != "" && mainCategory != "" && size > 0.0
    ensures var m := Marker(Point(0.0, 0.0), loc, category, mainCategory, CreateMarkerIcon(icons, mainCategory, category, loc, size));
      m.icon.size == Scaled(size, icons[i].1.scale) &&
      RescaleMarker(m, size).icon.size == size &&
      (RescaleMarker(m, size).icon.size == m.icon.size <==> icons[i].1.scale == 100)
  {
    assert RegistryScaleFor(icons, icons[i].1.path) == icons[i].1.scale;
    MarkerIconChoice(icons, mainCategory, category, loc, size);
    ScaledUnchangedIff(size, icons[i].1.scale);
  }

  /**
   * Where building and zoom-end resizing agree: a square-icon marker whose
   * location has no scale of its own, resized to a new base size, is the
   * marker built at that size.
   */
  lemma RescaleAgreesForSquares(icons: Registry, mainCategory: string, category: string, loc: Location,
                                position: Point, size: real, size': real)
    requires category != "" && mainCategory != "" && loc.scale.None?
    requires CreateMarkerIcon(icons, mainCategory, category, loc, size).art.Square?
    ensures RescaleMarker(Marker(position, loc, category, mainCategory, CreateMarkerIcon(icons, mainCategory, category, loc, size)), size')
         == Marker(position, loc, category, mainCategory, CreateMarkerIcon(icons, mainCategory, category, loc, size'))
  {
    MarkerIconChoice(icons, mainCategory, category, loc, size);
    MarkerIconChoice(icons, mainCategory, category, loc, size');
  }

  /**
   * With the actual registry: a location whose icon is the stairs image and
   * which has no scale of its own is drawn at two and a half times the base
   * size, and after any zoom it is drawn at the base size.
   */
  lemma StairsLocationShrinksOnZoomEnd(mainCategory: string, category: string, loc: Location, size: real)
    requires loc.icon == Some("icons/Stairs.png") && loc.scale.None?
    requires category != "" && mainCategory != "" && size > 0.0
    ensures var m := Marker(Point(0.0, 0.0), loc, category, mainCategory,
                            CreateMarkerIcon(AvailableIcons, mainCategory, category, loc, size));
      m.icon.size == 2.5 * size && RescaleMarker(m, size).icon.size == size
  {
    AvailableIconsScalesInRange();
    AvailableIconsPathsDistinct();
    assert AvailableIcons[0] == ("STAIRS", StairsIcon);
    RescaleIgnoresRegistryScale(AvailableIcons, mainCategory, category, loc, size, 0);
  }
}
