/**
 * Placement of one floor's tiles in the map plane (the tile loops of
 * `MapManager.loadAllMapLayers`). The floor's range gives `numCols` columns
 * (directories) and `numRows` rows (files); tile (col, row) is the file
 * `row + startTile` of directory `col + startDir`. Rows are inverted: file
 * numbers grow downwards, so row 0 lies at the top of the plane's latitude
 * range. Each rectangle is padded by a small overlap to hide seams.
 */
module TileLayout {
  import opened TileGrid

  const TileSize: int := 256
  const Overlap: int := 2

  /** A Leaflet bounds pair `[[south, west], [north, east]]` in plane units. */
  datatype Rect = Rect(south: int, west: int, north: int, east: int)

  /** One image overlay: the tile file it shows and where it is placed. */
  datatype Overlay = Overlay(dir: int, file: int, bounds: Rect)

  /** The unpadded square of tile (col, row): one tile size wide and high, rows inverted. */
  function CellRect(c: TileConfig, col: int, row: int): (r: Rect)
    ensures r.north - r.south == TileSize && r.east - r.west == TileSize
    ensures r.west == col * TileSize
    ensures r.south == (NumRows(c) - 1 - row) * TileSize
  {
    Rect((NumRows(c) - row - 1) * TileSize, col * TileSize,
         (NumRows(c) - row) * TileSize, (col + 1) * TileSize)
  }

  /** `r` grown by `d` on every side. */
  function Pad(r: Rect, d: int): Rect
  {
    Rect(r.south - d, r.west - d, r.north + d, r.east + d)
  }

  /** The overlay the loop adds for the pair `(dir, file)`. */
  function OverlayFor(c: TileConfig, p: (int, int)): Overlay
  {
    Overlay(p.0, p.1, Pad(CellRect(c, p.0 - c.startDir, p.1 - c.startTile), Overlap))
  }

  /** The overlays of a list of pairs, in the same order. */
  function OverlaysOf(c: TileConfig, ps: seq<(int, int)>): (os: seq<Overlay>)
    ensures |os| == |ps|
    ensures forall k :: 0 <= k < |ps| ==> os[k] == OverlayFor(c, ps[k])
  {
    seq(|ps|, k requires 0 <= k < |ps| => OverlayFor(c, ps[k]))
  }

  /** All overlays of a floor, in loop order (column by column, row by row within a column). */
  function FloorOverlays(c: TileConfig): seq<Overlay>
  {
    OverlaysOf(c, Pairs(c))
  }

  /** The view bounds `[[0, 0], [numRows * 256, numCols * 256]]` stored with the layer. */
  function ViewBounds(c: TileConfig): Rect
  {
    Rect(0, 0, NumRows(c) * TileSize, NumCols(c) * TileSize)
  }

  /** Half-open containment of the unit cell whose lower corner is (y, x). */
  predicate Covers(r: Rect, y: int, x: int)
  {
    r.south <= y < r.north && r.west <= x < r.east
  }

  /**
   * The loop over columns and rows of a floor with the given range. The
   * result is the list of overlays added to the floor's layer group.
   */
  method BuildTileLayer(c: TileConfig) returns (layer: seq<Overlay>)
    ensures layer == FloorOverlays(c)
  {
    var numCols := NumCols(c);
    var numRows := NumRows(c);
    layer := [];
    var col := 0;
    while col < numCols
      invariant 0 <= col <= Max0(numCols)
      invariant layer == OverlaysOf(c, PairsUpTo(c, col))
    {
      var row := 0;
      while row < numRows
        invariant 0 <= row <= Max0(numRows)
        invariant layer == OverlaysOf(c, PairsUpTo(c, col) + ColumnPairs(c, col)[..row])
      {
        var directory := col + c.startDir;
        var file := row + c.startTile;
        var bounds := Rect((numRows - row - 1) * TileSize - Overlap, col * TileSize - Overlap,
                           (numRows - row) * TileSize + Overlap, (col + 1) * TileSize + Overlap);
        assert ColumnPairs(c, col)[..row + 1] == ColumnPairs(c, col)[..row] + [(directory, file)];
        layer := layer + [Overlay(directory, file, bounds)];
        row := row + 1;
      }
      assert ColumnPairs(c, col)[..row] == ColumnPairs(c, col);
      col := col + 1;
    }
  }

  /**
   * A floor gets one overlay per `(directory, file)` of its range and no
   * other: `numCols * numRows` of them when both are non-negative, none when
   * either range is empty or reversed, and no pair twice.
   */
  lemma FloorOverlaysOnePerTile(c: TileConfig)
    ensures NumCols(c) >= 0 && NumRows(c) >= 0 ==> |FloorOverlays(c)| == NumCols(c) * NumRows(c)
    ensures NumCols(c) <= 0 || NumRows(c) <= 0 ==> FloorOverlays(c) == []
    ensures forall o :: o in FloorOverlays(c) ==> InRange(c, (o.dir, o.file))
    ensures forall p :: InRange(c, p) ==> OverlayFor(c, p) in FloorOverlays(c)
    ensures forall i, j :: 0 <= i < j < |FloorOverlays(c)| ==>
      (FloorOverlays(c)[i].dir, FloorOverlays(c)[i].file) != (FloorOverlays(c)[j].dir, FloorOverlays(c)[j].file)
  {
    PairsCount(c);
    PairsExactlyTheRange(c);
    var os := FloorOverlays(c);
    forall o | o in os ensures InRange(c, (o.dir, o.file)) {
      var k :| 0 <= k < |os| && os[k] == o;
      assert Pairs(c)[k] in Pairs(c);
    }
    forall p | InRange(c, p) ensures OverlayFor(c, p) in os {
      var k :| 0 <= k < |Pairs(c)| && Pairs(c)[k] == p;
      assert os[k] == OverlayFor(c, p);
    }
  }

  /** The overlay of tile (col, row) is its cell padded by the overlap on every side. */
  lemma OverlayBounds(c: TileConfig, col: int, row: int)
    requires 0 <= col < NumCols(c) && 0 <= row < NumRows(c)
    ensures var o := OverlayFor(c, (col + c.startDir, row + c.startTile));
      o.bounds == Rect((NumRows(c) - row - 1) * TileSize - Overlap, col * TileSize - Overlap,
                       (NumRows(c) - row) * TileSize + Overlap, (col + 1) * TileSize + Overlap)
  {
  }

  /** Rows are inverted: a higher file number lies wholly below a lower one in the same column. */
  lemma RowsInverted(c: TileConfig, col: int, row: int, row': int)
    requires row < row'
    ensures CellRect(c, col, row').north <= CellRect(c, col, row).south
  {
  }

  /** Every cell of the range lies inside the view bounds. */
  lemma CellsInsideView(c: TileConfig, col: int, row: int)
    requires 0 <= col < NumCols(c) && 0 <= row < NumRows(c)
    ensures var r, v := CellRect(c, col, row), ViewBounds(c);
      v.south <= r.south && r.north <= v.north && v.west <= r.west && r.east <= v.east
  {
  }

  /** Every unit cell of the view lies in the unpadded square of some tile of the range. */
  lemma CellsCoverView(c: TileConfig, y: int, x: int) returns (col: int, row: int)
    requires Covers(ViewBounds(c), y, x)
    ensures 0 <= col < NumCols(c) && 0 <= row < NumRows(c)
    ensures Covers(CellRect(c, col, row), y, x)
  {
    col := x / TileSize;
    row := NumRows(c) - 1 - y / TileSize;
  }

  /** Unpadded squares of different tiles share no unit cell: their interiors are disjoint. */
  lemma CellsDisjoint(c: TileConfig, col: int, row: int, col': int, row': int, y: int, x: int)
    requires Covers(CellRect(c, col, row), y, x) && Covers(CellRect(c, col', row'), y, x)
    ensures col == col' && row == row'
  {
  }

  /**
   * Neighbouring padded rectangles overlap by twice the padding (4 units),
   * across a column boundary and across a row boundary.
   */
  lemma NeighboursOverlap(c: TileConfig, col: int, row: int)
    ensures Pad(CellRect(c, col, row), Overlap).east - Pad(CellRect(c, col + 1, row), Overlap).west == 4
    ensures Pad(CellRect(c, col, row + 1), Overlap).north - Pad(CellRect(c, col, row), Overlap).south == 4
  {
  }

  /** Directories 1..2 and files 1..2 give four overlays and the view `[[0, 0], [512, 512]]`. */
  lemma SmallFloorLayout()
    ensures |FloorOverlays(TileConfig(1, 2, 1, 2))| == 4
    ensures ViewBounds(TileConfig(1, 2, 1, 2)) == Rect(0, 0, 512, 512)
  {
    SmallConfigPairs();
  }
}
