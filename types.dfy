/**
 * The atlas data model: locations, the category/level/locations maps, and the
 * registry of available marker icons.
 *
 * JavaScript objects keyed by arbitrary strings are modelled as association
 * lists (`Object<V>`), so that their iteration order exists in the model.
 */
module Types {
  import opened Wrappers

  /** A plane point `[lat, lng]` as stored in the location data. */
  datatype Point = Point(lat: real, lng: real)

  /** A location's `coordinates`: one pair, or a list of pairs. */
  datatype Coordinates = Single(point: Point) | Multiple(points: seq<Point>)

  datatype LocationId = NumericId(n: int) | TextId(s: string)

  datatype Location = Location(
    id: LocationId,
    title: string,
    description: string,
    coordinates: Coordinates,
    codexUpgrade: Option<string>,
    words: Option<string>,
    icon: Option<string>,          // path relative to the site root
    scale: Option<real>,           // percentage, 100 when absent
    container: Option<seq<string>>, // shown only in popups
    requirements: Option<string>)

  /** The points a location stands at, a single pair counting as one. */
  function CoordinateList(c: Coordinates): (ps: seq<Point>)
    ensures c.Single? ==> ps == [c.point]
    ensures c.Multiple? ==> ps == c.points
  {
    match c
    case Single(p) => [p]
    case Multiple(ps) => ps
  }

  /** The effective percentage of an optional scale: absent or 0 (falsy) reads as 100. */
  function ScaleOr100(s: Option<real>): (r: real)
    ensures s.Some? && s.value != 0.0 ==> r == s.value
    ensures s.None? || s.value == 0.0 ==> r == 100.0
  {
    if s.Some? && s.value != 0.0 then s.value else 100.0
  }

  /** A JavaScript object keyed by strings, in insertion order. */
  type Object<V> = seq<(string, V)>

  /** Property lookup: the first entry with key `k`. */
  function Get<V>(o: Object<V>, k: string): (r: Option<V>)
    ensures r.Some? <==> exists i :: 0 <= i < |o| && o[i].0 == k
    ensures r.Some? ==> exists i :: 0 <= i < |o| && o[i] == (k, r.value)
  {
    if o == [] then None
    else if o[0].0 == k then Some(o[0].1)
    else Get(o[1..], k)
  }

  /** The keys of an object. */
  function Keys<V>(o: Object<V>): (ks: set<string>)
    ensures forall k :: k in ks <==> exists i :: 0 <= i < |o| && o[i].0 == k
  {
    set i | 0 <= i < |o| :: o[i].0
  }

  /** Subcategory name to the locations in it. */
  type CategoryData = Object<seq<Location>>
  /** Main category name ("Passage", "Runes" or any other) to its subcategories. */
  type LevelData = Object<CategoryData>
  /** Level name to that level's data. */
  type LocationsData = Object<LevelData>

  datatype IconConfig = IconConfig(path: string, scale: int)

  /** An icon registry: entry name to icon, in declaration order. */
  type Registry = seq<(string, IconConfig)>

  /** Every scale of the registry lies between 100 and 300 percent. */
  predicate ScalesInRange(icons: Registry)
  {
    forall i :: 0 <= i < |icons| ==> 100 <= icons[i].1.scale <= 300
  }

  /** No two entries of the registry share a path. */
  predicate PathsDistinct(icons: Registry)
  {
    forall i, j :: 0 <= i < j < |icons| ==> icons[i].1.path != icons[j].1.path
  }

  /** `AVAILABLE_ICONS.STAIRS`. */
  const StairsIcon: IconConfig := IconConfig("icons/Stairs.png", 250)
  /** `AVAILABLE_ICONS.GATE_YELLOW`. */
  const GateYellowIcon: IconConfig := IconConfig("icons/Gates_Yellow.png", 150)

  /**
   * The `AVAILABLE_ICONS` registry, in declaration order: the default icons,
   * the time runes, then the images and bosses. It is declared in parts of at
   * most eight entries so that the facts about it can be checked part by part.
   */
  const AvailableIcons: Registry :=
    DefaultIcons0
    + DefaultIcons1
    + DefaultIcons2
    + DefaultIcons3
    + DefaultIcons4
    + TimeRuneIcons0
    + TimeRuneIcons1
    + TimeRuneIcons2
    + ImageAndBossIcons

  const DefaultIcons0: seq<(string, IconConfig)> := [
    ("STAIRS", StairsIcon),
    ("SKULL", IconConfig("icons/skull2.png", 100)),
    ("STAR", IconConfig("icons/star.png", 100)),
    ("GATE_RED", IconConfig("icons/Gates_Red.png", 100)),
    ("GATE_YELLOW", GateYellowIcon),
    ("GATE_SILVER", IconConfig("icons/Gates_Silver.png", 150)),
    ("TELEPORT_REL_POR", IconConfig("icons/rel-por.png", 200)),
    ("WAYSTAR", IconConfig("icons/waystar.png", 150))
  ]

  const DefaultIcons1: seq<(string, IconConfig)> := [
    ("LADDERS", IconConfig("icons/ladder.png", 300)),
    ("TELEPORT_TILE", IconConfig("icons/teleport-rune.png", 125)),
    ("GEM_VENDOR", IconConfig("icons/treasure.png", 125)),
    ("CAVE", IconConfig("icons/cave.png", 150)),
    ("FLAG", IconConfig("icons/flag.png", 150)),
    ("BOX", IconConfig("icons/wooden-box.png", 150)),
    ("HIDDEN_PASSAGE", IconConfig("icons/hidden_passage.png", 125)),
    ("TRAP", IconConfig("icons/trap.png", 150))
  ]

  const DefaultIcons2: seq<(string, IconConfig)> := [
    ("GRAY_CHEST", IconConfig("icons/gray_chest.png", 125)),
    ("TREASURE_CHEST", IconConfig("icons/treasure_chest.png", 135)),
    ("VOIDBALL", IconConfig("icons/voidball.png", 125)),
    ("PORTAL", IconConfig("icons/portal.png", 150)),
    ("SECRET_DOOR", IconConfig("icons/secret-door.png", 150)),
    ("WATER", IconConfig("icons/water.png", 150)),
    ("DRAGON", IconConfig("icons/dragon.png", 200)),
    ("BOSS", IconConfig("icons/boss.png", 150))
  ]

  const DefaultIcons3: seq<(string, IconConfig)> := [
    ("SHACKLES", IconConfig("icons/shackles.png", 200)),
    ("EXCLAMATION_MARK", IconConfig("icons/exclamation-mark.png", 200)),
    ("WALL", IconConfig("icons/brick-wall.png", 150)),
    ("ANKH", IconConfig("icons/ankh.png", 200)),
    ("LEVER", IconConfig("icons/lever.png", 150)),
    ("REVEALER", IconConfig("icons/eye.png", 125)),
    ("BARRIER", IconConfig("icons/barrier.png", 150)),
    ("CRYSTAL", IconConfig("icons/crystal.png", 125))
  ]

  const DefaultIcons4: seq<(string, IconConfig)> := [
    ("AMBUSH", IconConfig("icons/swords.png", 150)),
    ("BRIDGE", IconConfig("icons/bridge.png", 250)),
    ("RED_DOORS", IconConfig("icons/red-doors.png", 175)),
    ("BOOKS", IconConfig("icons/book.png", 175)),
    ("COMPASS", IconConfig("icons/compass.png", 150)),
    ("PILGRIM", IconConfig("icons/pilgrim.png", 150))
  ]

  const TimeRuneIcons0: seq<(string, IconConfig)> := [
    ("RUNE_KNOCK", IconConfig("icons/runes/timerune-knock.png", 100)),
    ("RUNE_MEND", IconConfig("icons/runes/timerune-mendtime.png", 100)),
    ("RUNE_IRONFLESH", IconConfig("icons/runes/timerune-ironflesh.png", 100)),
    ("RUNE_REPEL", IconConfig("icons/runes/timerune-repel.png", 100)),
    ("RUNE_ANIMATEDWEAPON", IconConfig("icons/runes/timerune-animatedweapon.png", 100)),
    ("RUNE_AWAKENEARTH", IconConfig("icons/runes/timerune-awakenearth.png", 100)),
    ("RUNE_BLOOMTIME", IconConfig("icons/runes/timerune-bloomtime.png", 100)),
    ("RUNE_CIRCLEOFPOWER", IconConfig("icons/runes/timerune-circleofpower.png", 100))
  ]

  const TimeRuneIcons1: seq<(string, IconConfig)> := [
    ("RUNE_CONJUREPOTION", IconConfig("icons/runes/timerune-conjurepotion.png", 100)),
    ("RUNE_FORTIFYRATIONS", IconConfig("icons/runes/timerune-fortifyrations.png", 100)),
    ("RUNE_MAGICWARD", IconConfig("icons/runes/timerune-magicward.png", 100)),
    ("RUNE_MASSINVISIBILITY", IconConfig("icons/runes/timerune-massinvisibility.png", 100)),
    ("RUNE_MASSSLEEP", IconConfig("icons/runes/timerune-masssleep.png", 100)),
    ("RUNE_METEORSHOWER", IconConfig("icons/runes/timerune-meteorshower.png", 100)),
    ("RUNE_NEGATETIME", IconConfig("icons/runes/timerune-negatetime.png", 100)),
    ("RUNE_REFRESH", IconConfig("icons/runes/timerune-refresh.png", 100))
  ]

  const TimeRuneIcons2: seq<(string, IconConfig)> := [
    ("RUNE_SILVERSAPLING", IconConfig("icons/runes/timerune-silversapling.png", 100)),
    ("RUNE_TIMELYWEALTH", IconConfig("icons/runes/timerune-timelywealth.png", 100)),
    ("RUNE_TREMOR", IconConfig("icons/runes/timerune-tremor.png", 100)),
    ("RUNE_WILDCREATURES", IconConfig("icons/runes/timerune-wildcreatures.png", 100))
  ]

  const ImageAndBossIcons: seq<(string, IconConfig)> := [
    ("BLEEDING_SANDS", IconConfig("images/bleeding-sands.png", 300)),
    ("POISON_FINGER", IconConfig("icons/bosses/poison-finger.png", 200)),
    ("EXOTHRUGG", IconConfig("images/exothrugg.png", 300))
  ]

  /** No path of `a` appears in `b`. */
  predicate PathsApart(a: Registry, b: Registry)
  {
    forall i, j :: 0 <= i < |a| && 0 <= j < |b| ==> a[i].1.path != b[j].1.path
  }

  /** Joining two registries with distinct paths and no path in common keeps the paths distinct. */
  lemma JoinDistinct(a: Registry, b: Registry)
    requires PathsDistinct(a) && PathsDistinct(b) && PathsApart(a, b)
    ensures PathsDistinct(a + b)
  {
    forall i, j | 0 <= i < j < |a + b| ensures (a + b)[i].1.path != (a + b)[j].1.path {
      if j < |a| {
        assert (a + b)[i] == a[i] && (a + b)[j] == a[j];
      } else if i < |a| {
        assert (a + b)[i] == a[i] && (a + b)[j] == b[j - |a|];
      } else {
        assert (a + b)[i] == b[i - |a|] && (a + b)[j] == b[j - |a|];
      }
    }
  }

  /** A registry apart from both halves of a join is apart from the join. */
  lemma JoinApart(a: Registry, b: Registry, c: Registry)
    requires PathsApart(a, c) && PathsApart(b, c)
    ensures PathsApart(a + b, c)
  {
    forall i, j | 0 <= i < |a + b| && 0 <= j < |c| ensures (a + b)[i].1.path != c[j].1.path {
      if i < |a| {
        assert (a + b)[i] == a[i];
      } else {
        assert (a + b)[i] == b[i - |a|];
      }
    }
  }

  /** A join whose halves keep their scales in range keeps them in range. */
  lemma JoinScalesInRange(a: Registry, b: Registry)
    requires ScalesInRange(a) && ScalesInRange(b)
    ensures ScalesInRange(a + b)
  {
    forall i | 0 <= i < |a + b| ensures 100 <= (a + b)[i].1.scale <= 300 {
      if i < |a| {
        assert (a + b)[i] == a[i];
      } else {
        assert (a + b)[i] == b[i - |a|];
      }
    }
  }

  lemma DefaultIcons0Facts()
    ensures ScalesInRange(DefaultIcons0) && PathsDistinct(DefaultIcons0)
  {
  }

  lemma DefaultIcons1Facts()
    ensures ScalesInRange(DefaultIcons1) && PathsDistinct(DefaultIcons1)
  {
  }

  lemma DefaultIcons2Facts()
    ensures ScalesInRange(DefaultIcons2) && PathsDistinct(DefaultIcons2)
  {
  }

  lemma DefaultIcons3Facts()
    ensures ScalesInRange(DefaultIcons3) && PathsDistinct(DefaultIcons3)
  {
  }

  lemma DefaultIcons4Facts()
    ensures ScalesInRange(DefaultIcons4) && PathsDistinct(DefaultIcons4)
  {
  }

  lemma TimeRuneIcons0Facts()
    ensures ScalesInRange(TimeRuneIcons0) && PathsDistinct(TimeRuneIcons0)
  {
  }

  lemma TimeRuneIcons1Facts()
    ensures ScalesInRange(TimeRuneIcons1) && PathsDistinct(TimeRuneIcons1)
  {
  }

  lemma TimeRuneIcons2Facts()
    ensures ScalesInRange(TimeRuneIcons2) && PathsDistinct(TimeRuneIcons2)
  {
  }

  lemma ImageAndBossIconsFacts()
    ensures ScalesInRange(ImageAndBossIcons) && PathsDistinct(ImageAndBossIcons)
  {
  }

  lemma DefaultIcons0ApartDefaultIcons1()
    ensures PathsApart(DefaultIcons0, DefaultIcons1)
  {
  }

  lemma DefaultIcons0ApartDefaultIcons2()
    ensures PathsApart(DefaultIcons0, DefaultIcons2)
  {
  }

  lemma DefaultIcons1ApartDefaultIcons2()
    ensures PathsApart(DefaultIcons1, DefaultIcons2)
  {
  }

  lemma DefaultIcons0ApartDefaultIcons3()
    ensures PathsApart(DefaultIcons0, DefaultIcons3)
  {
  }

  lemma DefaultIcons1ApartDefaultIcons3()
    ensures PathsApart(DefaultIcons1, DefaultIcons3)
  {
  }

  lemma DefaultIcons2ApartDefaultIcons3()
    ensures PathsApart(DefaultIcons2, DefaultIcons3)
  {
  }

  lemma DefaultIcons0ApartDefaultIcons4()
    ensures PathsApart(DefaultIcons0, DefaultIcons4)
  {
  }

  lemma DefaultIcons1ApartDefaultIcons4()
    ensures PathsApart(DefaultIcons1, DefaultIcons4)
  {
  }

  lemma DefaultIcons2ApartDefaultIcons4()
    ensures PathsApart(DefaultIcons2, DefaultIcons4)
  {
  }

  lemma DefaultIcons3ApartDefaultIcons4()
    ensures PathsApart(DefaultIcons3, DefaultIcons4)
  {
  }

  lemma DefaultIcons0ApartTimeRuneIcons0()
    ensures PathsApart(DefaultIcons0, TimeRuneIcons0)
  {
  }

  lemma DefaultIcons1ApartTimeRuneIcons0()
    ensures PathsApart(DefaultIcons1, TimeRuneIcons0)
  {
  }

  lemma DefaultIcons2ApartTimeRuneIcons0()
    ensures PathsApart(DefaultIcons2, TimeRuneIcons0)
  {
  }

  lemma DefaultIcons3ApartTimeRuneIcons0()
    ensures PathsApart(DefaultIcons3, TimeRuneIcons0)
  {
  }

  lemma DefaultIcons4ApartTimeRuneIcons0()
    ensures PathsApart(DefaultIcons4, TimeRuneIcons0)
  {
  }

  lemma DefaultIcons0ApartTimeRuneIcons1()
    ensures PathsApart(DefaultIcons0, TimeRuneIcons1)
  {
  }

  lemma DefaultIcons1ApartTimeRuneIcons1()
    ensures PathsApart(DefaultIcons1, TimeRuneIcons1)
  {
  }

  lemma DefaultIcons2ApartTimeRuneIcons1()
    ensures PathsApart(DefaultIcons2, TimeRuneIcons1)
  {
  }

  lemma DefaultIcons3ApartTimeRuneIcons1()
    ensures PathsApart(DefaultIcons3, TimeRuneIcons1)
  {
  }

  lemma DefaultIcons4ApartTimeRuneIcons1()
    ensures PathsApart(DefaultIcons4, TimeRuneIcons1)
  {
  }

  lemma TimeRuneIcons0ApartTimeRuneIcons1()
    ensures PathsApart(TimeRuneIcons0, TimeRuneIcons1)
  {
  }

  lemma DefaultIcons0ApartTimeRuneIcons2()
    ensures PathsApart(DefaultIcons0, TimeRuneIcons2)
  {
  }

  lemma DefaultIcons1ApartTimeRuneIcons2()
    ensures PathsApart(DefaultIcons1, TimeRuneIcons2)
  {
  }

  lemma DefaultIcons2ApartTimeRuneIcons2()
    ensures PathsApart(DefaultIcons2, TimeRuneIcons2)
  {
  }

  lemma DefaultIcons3ApartTimeRuneIcons2()
    ensures PathsApart(DefaultIcons3, TimeRuneIcons2)
  {
  }

  lemma DefaultIcons4ApartTimeRuneIcons2()
    ensures PathsApart(DefaultIcons4, TimeRuneIcons2)
  {
  }

  lemma TimeRuneIcons0ApartTimeRuneIcons2()
    ensures PathsApart(TimeRuneIcons0, TimeRuneIcons2)
  {
  }

  lemma TimeRuneIcons1ApartTimeRuneIcons2()
    ensures PathsApart(TimeRuneIcons1, TimeRuneIcons2)
  {
  }

  lemma DefaultIcons0ApartImageAndBossIcons()
    ensures PathsApart(DefaultIcons0, ImageAndBossIcons)
  {
  }

  lemma DefaultIcons1ApartImageAndBossIcons()
    ensures PathsApart(DefaultIcons1, ImageAndBossIcons)
  {
  }

  lemma DefaultIcons2ApartImageAndBossIcons()
    ensures PathsApart(DefaultIcons2, ImageAndBossIcons)
  {
  }

  lemma DefaultIcons3ApartImageAndBossIcons()
    ensures PathsApart(DefaultIcons3, ImageAndBossIcons)
  {
  }

  lemma DefaultIcons4ApartImageAndBossIcons()
    ensures PathsApart(DefaultIcons4, ImageAndBossIcons)
  {
  }

  lemma TimeRuneIcons0ApartImageAndBossIcons()
    ensures PathsApart(TimeRuneIcons0, ImageAndBossIcons)
  {
  }

  lemma TimeRuneIcons1ApartImageAndBossIcons()
    ensures PathsApart(TimeRuneIcons1, ImageAndBossIcons)
  {
  }

  lemma TimeRuneIcons2ApartImageAndBossIcons()
    ensures PathsApart(TimeRuneIcons2, ImageAndBossIcons)
  {
  }

  /** Every scale of `AVAILABLE_ICONS` lies between 100 and 300 percent. */
  lemma AvailableIconsScalesInRange()
    ensures ScalesInRange(AvailableIcons)
  {
    DefaultIcons0Facts();
    DefaultIcons1Facts();
    JoinScalesInRange(DefaultIcons0, DefaultIcons1);
    DefaultIcons2Facts();
    JoinScalesInRange(DefaultIcons0 + DefaultIcons1, DefaultIcons2);
    DefaultIcons3Facts();
    JoinScalesInRange(DefaultIcons0 + DefaultIcons1 + DefaultIcons2, DefaultIcons3);
    DefaultIcons4Facts();
    JoinScalesInRange(DefaultIcons0 + DefaultIcons1 + DefaultIcons2 + DefaultIcons3, DefaultIcons4);
    TimeRuneIcons0Facts();
    JoinScalesInRange(DefaultIcons0 + DefaultIcons1 + DefaultIcons2 + DefaultIcons3 + DefaultIcons4, TimeRuneIcons0);
    TimeRuneIcons1Facts();
    JoinScalesInRange(DefaultIcons0 + DefaultIcons1 + DefaultIcons2 + DefaultIcons3 + DefaultIcons4 + TimeRuneIcons0, TimeRuneIcons1);
    TimeRuneIcons2Facts();
    JoinScalesInRange(DefaultIcons0 + DefaultIcons1 + DefaultIcons2 + DefaultIcons3 + DefaultIcons4 + TimeRuneIcons0 + TimeRuneIcons1, TimeRuneIcons2);
    ImageAndBossIconsFacts();
    JoinScalesInRange(DefaultIcons0 + DefaultIcons1 + DefaultIcons2 + DefaultIcons3 + DefaultIcons4 + TimeRuneIcons0 + TimeRuneIcons1 + TimeRuneIcons2, ImageAndBossIcons);
  }

  /** No two entries of `AVAILABLE_ICONS` share a path, so a lookup by path is unambiguous. */
  lemma AvailableIconsPathsDistinct()
    ensures PathsDistinct(AvailableIcons)
  {
    DefaultIcons0Facts();
    DefaultIcons1Facts();
    DefaultIcons0ApartDefaultIcons1();
    JoinDistinct(DefaultIcons0, DefaultIcons1);
    DefaultIcons2Facts();
    DefaultIcons0ApartDefaultIcons2();
    DefaultIcons1ApartDefaultIcons2();
    JoinApart(DefaultIcons0, DefaultIcons1, DefaultIcons2);
    JoinDistinct(DefaultIcons0 + DefaultIcons1, DefaultIcons2);
    DefaultIcons3Facts();
    DefaultIcons0ApartDefaultIcons3();
    DefaultIcons1ApartDefaultIcons3();
    JoinApart(DefaultIcons0, DefaultIcons1, DefaultIcons3);
    DefaultIcons2ApartDefaultIcons3();
    JoinApart(DefaultIcons0 + DefaultIcons1, DefaultIcons2, DefaultIcons3);
    JoinDistinct(DefaultIcons0 + DefaultIcons1 + DefaultIcons2, DefaultIcons3);
    DefaultIcons4Facts();
    DefaultIcons0ApartDefaultIcons4();
    DefaultIcons1ApartDefaultIcons4();
    JoinApart(DefaultIcons0, DefaultIcons1, DefaultIcons4);
    DefaultIcons2ApartDefaultIcons4();
    JoinApart(DefaultIcons0 + DefaultIcons1, DefaultIcons2, DefaultIcons4);
    DefaultIcons3ApartDefaultIcons4();
    JoinApart(DefaultIcons0 + DefaultIcons1 + DefaultIcons2, DefaultIcons3, DefaultIcons4);
    JoinDistinct(DefaultIcons0 + DefaultIcons1 + DefaultIcons2 + DefaultIcons3, DefaultIcons4);
    TimeRuneIcons0Facts();
    DefaultIcons0ApartTimeRuneIcons0();
    DefaultIcons1ApartTimeRuneIcons0();
    JoinApart(DefaultIcons0, DefaultIcons1, TimeRuneIcons0);
    DefaultIcons2ApartTimeRuneIcons0();
    JoinApart(DefaultIcons0 + DefaultIcons1, DefaultIcons2, TimeRuneIcons0);
    DefaultIcons3ApartTimeRuneIcons0();
    JoinApart(DefaultIcons0 + DefaultIcons1 + DefaultIcons2, DefaultIcons3, TimeRuneIcons0);
    DefaultIcons4ApartTimeRuneIcons0();
    JoinApart(DefaultIcons0 + DefaultIcons1 + DefaultIcons2 + DefaultIcons3, DefaultIcons4, TimeRuneIcons0);
    JoinDistinct(DefaultIcons0 + DefaultIcons1 + DefaultIcons2 + DefaultIcons3 + DefaultIcons4, TimeRuneIcons0);
    TimeRuneIcons1Facts();
    DefaultIcons0ApartTimeRuneIcons1();
    DefaultIcons1ApartTimeRuneIcons1();
    JoinApart(DefaultIcons0, DefaultIcons1, TimeRuneIcons1);
    DefaultIcons2ApartTimeRuneIcons1();
    JoinApart(DefaultIcons0 + DefaultIcons1, DefaultIcons2, TimeRuneIcons1);
    DefaultIcons3ApartTimeRuneIcons1();
    JoinApart(DefaultIcons0 + DefaultIcons1 + DefaultIcons2, DefaultIcons3, TimeRuneIcons1);
    DefaultIcons4ApartTimeRuneIcons1();
    JoinApart(DefaultIcons0 + DefaultIcons1 + DefaultIcons2 + DefaultIcons3, DefaultIcons4, TimeRuneIcons1);
    TimeRuneIcons0ApartTimeRuneIcons1();
    JoinApart(DefaultIcons0 + DefaultIcons1 + DefaultIcons2 + DefaultIcons3 + DefaultIcons4, TimeRuneIcons0, TimeRuneIcons1);
    JoinDistinct(DefaultIcons0 + DefaultIcons1 + DefaultIcons2 + DefaultIcons3 + DefaultIcons4 + TimeRuneIcons0, TimeRuneIcons1);
    TimeRuneIcons2Facts();
    DefaultIcons0ApartTimeRuneIcons2();
    DefaultIcons1ApartTimeRuneIcons2();
    JoinApart(DefaultIcons0, DefaultIcons1, TimeRuneIcons2);
    DefaultIcons2ApartTimeRuneIcons2();
    JoinApart(DefaultIcons0 + DefaultIcons1, DefaultIcons2, TimeRuneIcons2);
    DefaultIcons3ApartTimeRuneIcons2();
    JoinApart(DefaultIcons0 + DefaultIcons1 + DefaultIcons2, DefaultIcons3, TimeRuneIcons2);
    DefaultIcons4ApartTimeRuneIcons2();
    JoinApart(DefaultIcons0 + DefaultIcons1 + DefaultIcons2 + DefaultIcons3, DefaultIcons4, TimeRuneIcons2);
    TimeRuneIcons0ApartTimeRuneIcons2();
    JoinApart(DefaultIcons0 + DefaultIcons1 + DefaultIcons2 + DefaultIcons3 + DefaultIcons4, TimeRuneIcons0, TimeRuneIcons2);
    TimeRuneIcons1ApartTimeRuneIcons2();
    JoinApart(DefaultIcons0 + DefaultIcons1 + DefaultIcons2 + DefaultIcons3 + DefaultIcons4 + TimeRuneIcons0, TimeRuneIcons1, TimeRuneIcons2);
    JoinDistinct(DefaultIcons0 + DefaultIcons1 + DefaultIcons2 + DefaultIcons3 + DefaultIcons4 + TimeRuneIcons0 + TimeRuneIcons1, TimeRuneIcons2);
    ImageAndBossIconsFacts();
    DefaultIcons0ApartImageAndBossIcons();
    DefaultIcons1ApartImageAndBossIcons();
    JoinApart(DefaultIcons0, DefaultIcons1, ImageAndBossIcons);
    DefaultIcons2ApartImageAndBossIcons();
    JoinApart(DefaultIcons0 + DefaultIcons1, DefaultIcons2, ImageAndBossIcons);
    DefaultIcons3ApartImageAndBossIcons();
    JoinApart(DefaultIcons0 + DefaultIcons1 + DefaultIcons2, DefaultIcons3, ImageAndBossIcons);
    DefaultIcons4ApartImageAndBossIcons();
    JoinApart(DefaultIcons0 + DefaultIcons1 + DefaultIcons2 + DefaultIcons3, DefaultIcons4, ImageAndBossIcons);
    TimeRuneIcons0ApartImageAndBossIcons();
    JoinApart(DefaultIcons0 + DefaultIcons1 + DefaultIcons2 + DefaultIcons3 + DefaultIcons4, TimeRuneIcons0, ImageAndBossIcons);
    TimeRuneIcons1ApartImageAndBossIcons();
    JoinApart(DefaultIcons0 + DefaultIcons1 + DefaultIcons2 + DefaultIcons3 + DefaultIcons4 + TimeRuneIcons0, TimeRuneIcons1, ImageAndBossIcons);
    TimeRuneIcons2ApartImageAndBossIcons();
    JoinApart(DefaultIcons0 + DefaultIcons1 + DefaultIcons2 + DefaultIcons3 + DefaultIcons4 + TimeRuneIcons0 + TimeRuneIcons1, TimeRuneIcons2, ImageAndBossIcons);
    JoinDistinct(DefaultIcons0 + DefaultIcons1 + DefaultIcons2 + DefaultIcons3 + DefaultIcons4 + TimeRuneIcons0 + TimeRuneIcons1 + TimeRuneIcons2, ImageAndBossIcons);
  }
}
