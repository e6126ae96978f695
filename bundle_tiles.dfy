/**
 * The tile bundling script for one floor: for every directory of the
 * floor's range it reads the directory's tiles in ascending order and
 * composes them into one vertical sprite sheet, `bundles/<dir>.png`, one
 * tile below the other. Images are abstracted to the tile numbers they
 * come from; the first tile's metadata of each directory is a parameter.
 */
module TileBundling {
  import opened Wrappers
  import opened TileGrid

  /** The default edge length when the metadata gives none (missing or 0). */
  const DefaultEdge: nat := 256

  /** The width and height sharp reports for an image; either may be missing. */
  datatype Metadata = Metadata(width: Option<nat>, height: Option<nat>)

  /** `value || 256`: a missing or zero dimension falls back to the default. */
  function EdgeOr256(v: Option<nat>): (r: nat)
    ensures r > 0
    ensures v.Some? && v.value != 0 ==> r == v.value
    ensures v.None? || v.value == 0 ==> r == DefaultEdge
  {
    if v.Some? && v.value != 0 then v.value else DefaultEdge
  }

  /** One composite input: the tile it shows and its offset in the sheet. */
  datatype Placement = Placement(tile: int, top: int, left: int)

  /** One sprite sheet, written as `bundles/<dir>.png`. */
  datatype Bundle = Bundle(dir: int, width: nat, height: int, placements: seq<Placement>)

  /** The composite list: the tile at position `k` goes `k` tile heights down, at the left edge. */
  function Layout(tiles: seq<int>, tileHeight: nat): seq<Placement>
  {
    seq(|tiles|, k requires 0 <= k < |tiles| => Placement(tiles[k], k * tileHeight, 0))
  }

  /** `a <= b` scales to `a * h <= b * h` for a non-negative height. */
  lemma ScaleMonotone(a: int, b: int, h: nat)
    requires a <= b
    ensures a * h <= b * h
  {
    assert b * h - a * h == (b - a) * h;
  }

  /** The first placement is at the top and each next one starts where the previous one ends: no gap. */
  lemma LayoutContiguous(tiles: seq<int>, tileHeight: nat)
    ensures var ps := Layout(tiles, tileHeight);
      && (ps != [] ==> ps[0].top == 0)
      && (forall k :: 0 <= k < |ps| - 1 ==> ps[k + 1].top == ps[k].top + tileHeight)
  {
    var ps := Layout(tiles, tileHeight);
    forall k | 0 <= k < |ps| - 1 ensures ps[k + 1].top == ps[k].top + tileHeight {
      assert (k + 1) * tileHeight == k * tileHeight + tileHeight;
    }
  }

  /** A later placement starts at or below the end of an earlier one: no two tiles overlap. */
  lemma LayoutDisjoint(tiles: seq<int>, tileHeight: nat)
    ensures var ps := Layout(tiles, tileHeight);
      forall k, l :: 0 <= k < l < |ps| ==> ps[k].top + tileHeight <= ps[l].top
  {
    var ps := Layout(tiles, tileHeight);
    forall k, l | 0 <= k < l < |ps| ensures ps[k].top + tileHeight <= ps[l].top {
      ScaleMonotone(k + 1, l, tileHeight);
      assert (k + 1) * tileHeight == k * tileHeight + tileHeight;
    }
  }

  /**
   * Every placement lies inside a sheet `tileHeight * |tiles|` high, and the
   * last one ends exactly at its bottom edge.
   */
  lemma LayoutFillsCanvas(tiles: seq<int>, tileHeight: nat)
    ensures var ps := Layout(tiles, tileHeight);
      && (forall k :: 0 <= k < |ps| ==> 0 <= ps[k].top && ps[k].top + tileHeight <= tileHeight * |tiles|)
      && (ps != [] ==> ps[|ps| - 1].top + tileHeight == tileHeight * |tiles|)
  {
    var ps := Layout(tiles, tileHeight);
    forall k | 0 <= k < |ps| ensures 0 <= ps[k].top && ps[k].top + tileHeight <= tileHeight * |tiles| {
      ScaleMonotone(0, k, tileHeight);
      ScaleMonotone(k + 1, |tiles|, tileHeight);
      assert (k + 1) * tileHeight == k * tileHeight + tileHeight;
      assert |tiles| * tileHeight == tileHeight * |tiles|;
    }
    if ps != [] {
      assert (|ps| - 1) * tileHeight + tileHeight == |ps| * tileHeight;
    }
  }

  /** The bundle the loop body writes for `dir`, given the tiles it read and the first tile's metadata. */
  function BundleFor(c: TileConfig, dir: int, tiles: seq<int>, meta: Metadata): Bundle
  {
    var tileHeight := EdgeOr256(meta.height);
    Bundle(dir, EdgeOr256(meta.width), tileHeight * NumRows(c), Layout(tiles, tileHeight))
  }

  /** The tile loop: the tiles `startTile..endTile` of one directory, in ascending order. */
  method ReadTiles(c: TileConfig) returns (tileImages: seq<int>)
    ensures tileImages == FileNumbers(c)
  {
    tileImages := [];
    var tile := c.startTile;
    while tile <= c.endTile
      invariant c.startTile <= tile <= c.endTile + 1 || (tile == c.startTile && c.endTile < c.startTile)
      invariant tileImages == FileNumbers(c)[..tile - c.startTile]
      decreases c.endTile - tile
    {
      tileImages := tileImages + [tile];
      tile := tile + 1;
    }
  }

  /**
   * `bundleTilesForFloor` with the first tile's metadata of each directory
   * as a parameter. With an empty or reversed file range the first sheet
   * has no height, which sharp refuses, so the floor fails before any
   * bundle is written; otherwise there is one bundle per directory, in
   * ascending directory order, each stacking that directory's tiles.
   */
  method BundleTilesForFloor(c: TileConfig, firstTileMeta: int -> Metadata) returns (ok: bool, bundles: seq<Bundle>)
    ensures ok <==> NumCols(c) <= 0 || NumRows(c) > 0
    ensures !ok ==> bundles == []
    ensures ok ==> |bundles| == |Directories(c)|
    ensures ok ==> forall k :: 0 <= k < |bundles| ==>
      bundles[k] == BundleFor(c, c.startDir + k, FileNumbers(c), firstTileMeta(c.startDir + k))
  {
    var tilesPerRow := c.endTile - c.startTile + 1;
    bundles := [];
    var dir := c.startDir;
    while dir <= c.endDir
      invariant c.startDir <= dir <= c.endDir + 1 || (dir == c.startDir && c.endDir < c.startDir)
      invariant |bundles| == dir - c.startDir
      invariant dir > c.startDir ==> NumRows(c) > 0
      invariant forall k :: 0 <= k < |bundles| ==>
        bundles[k] == BundleFor(c, c.startDir + k, FileNumbers(c), firstTileMeta(c.startDir + k))
      decreases c.endDir - dir
    {
      var tileImages := ReadTiles(c);
      var meta := firstTileMeta(dir);
      var tileWidth := EdgeOr256(meta.width);
      var tileHeight := EdgeOr256(meta.height);
      // sharp refuses a canvas without height; tileHeight is positive, so
      // that is the case exactly when tilesPerRow is not
      if tilesPerRow <= 0 {
        return false, [];
      }
      var placements := Layout(tileImages, tileHeight);
      bundles := bundles + [Bundle(dir, tileWidth, tileHeight * tilesPerRow, placements)];
      dir := dir + 1;
    }
    ok := true;
  }

  /** Every bundle of a floor with a non-empty file range is a full sheet: one placement per tile, filling its height. */
  lemma BundleIsFullSheet(c: TileConfig, dir: int, meta: Metadata)
    requires NumRows(c) > 0
    ensures var b := BundleFor(c, dir, FileNumbers(c), meta);
      && |b.placements| == NumRows(c)
      && b.height == EdgeOr256(meta.height) * NumRows(c)
      && (forall k :: 0 <= k < |b.placements| ==> b.placements[k].tile == c.startTile + k)
      && b.placements[|b.placements| - 1].top + EdgeOr256(meta.height) == b.height
  {
    LayoutFillsCanvas(FileNumbers(c), EdgeOr256(meta.height));
  }
}
