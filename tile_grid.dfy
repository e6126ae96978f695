/**
 * A floor's single tile range: directories `startDir..endDir` (the columns)
 * and files `startTile..endTile` within each directory (the rows). The map,
 * the download script and the bundling script all walk this range in the same
 * order, directory by directory and file by file within a directory.
 */
module TileGrid {

  datatype TileConfig = TileConfig(startDir: int, endDir: int, startTile: int, endTile: int)

  /** Number of directories the config names; negative when `endDir < startDir - 1`. */
  function NumCols(c: TileConfig): int { c.endDir - c.startDir + 1 }

  /** Number of files per directory the config names; negative when `endTile < startTile - 1`. */
  function NumRows(c: TileConfig): int { c.endTile - c.startTile + 1 }

  function Max0(n: int): (r: nat)
    ensures r >= n && (n >= 0 ==> r == n)
  {
    if n < 0 then 0 else n
  }

  /** The ascending directory numbers `startDir..endDir` (none when the range is empty or reversed). */
  function Directories(c: TileConfig): (ds: seq<int>)
    ensures |ds| == Max0(NumCols(c))
    ensures forall i :: 0 <= i < |ds| ==> ds[i] == c.startDir + i
  {
    seq(Max0(NumCols(c)), i => c.startDir + i)
  }

  /** The ascending file numbers `startTile..endTile` (none when the range is empty or reversed). */
  function FileNumbers(c: TileConfig): (fs: seq<int>)
    ensures |fs| == Max0(NumRows(c))
    ensures forall i :: 0 <= i < |fs| ==> fs[i] == c.startTile + i
  {
    seq(Max0(NumRows(c)), i => c.startTile + i)
  }

  /** The pairs of directory number `startDir + col` with every file number, in ascending file order. */
  function ColumnPairs(c: TileConfig, col: int): seq<(int, int)>
  {
    seq(|FileNumbers(c)|, row requires 0 <= row < |FileNumbers(c)| => (c.startDir + col, FileNumbers(c)[row]))
  }

  /** The pairs of the first `n` directories, directory-major. */
  function PairsUpTo(c: TileConfig, n: nat): seq<(int, int)>
  {
    if n == 0 then [] else PairsUpTo(c, n - 1) + ColumnPairs(c, n - 1)
  }

  /** Every `(directory, file)` pair of the range, directory-major. */
  function Pairs(c: TileConfig): seq<(int, int)>
  {
    PairsUpTo(c, |Directories(c)|)
  }

  predicate InRange(c: TileConfig, p: (int, int))
  {
    c.startDir <= p.0 <= c.endDir && c.startTile <= p.1 <= c.endTile
  }

  /** Strict lexicographic order: directory first, then file. */
  predicate DirMajorBefore(p: (int, int), q: (int, int))
  {
    p.0 < q.0 || (p.0 == q.0 && p.1 < q.1)
  }

  lemma {:induction false} PairsUpToLength(c: TileConfig, n: nat)
    ensures |PairsUpTo(c, n)| == n * |FileNumbers(c)|
  {
    if n > 0 {
      PairsUpToLength(c, n - 1);
      calc {
        |PairsUpTo(c, n)|;
        (n - 1) * |FileNumbers(c)| + |FileNumbers(c)|;
        n * |FileNumbers(c)|;
      }
    }
  }

  /** The enumeration has one pair per directory and file: the product of the two range lengths. */
  lemma PairsCount(c: TileConfig)
    ensures |Pairs(c)| == |Directories(c)| * |FileNumbers(c)|
    ensures NumCols(c) >= 0 && NumRows(c) >= 0 ==> |Pairs(c)| == NumCols(c) * NumRows(c)
    ensures NumCols(c) <= 0 || NumRows(c) <= 0 ==> Pairs(c) == []
  {
    PairsUpToLength(c, |Directories(c)|);
    if NumCols(c) <= 0 || NumRows(c) <= 0 {
      assert |Directories(c)| == 0 || |FileNumbers(c)| == 0;
    }
  }

  lemma {:induction false} PairsUpToBounds(c: TileConfig, n: nat)
    ensures forall p :: p in PairsUpTo(c, n) ==>
      c.startDir <= p.0 < c.startDir + n && c.startTile <= p.1 <= c.endTile
  {
    if n > 0 {
      PairsUpToBounds(c, n - 1);
    }
  }

  lemma {:induction false} PairsUpToOrdered(c: TileConfig, n: nat)
    ensures forall i, j :: 0 <= i < j < |PairsUpTo(c, n)| ==> DirMajorBefore(PairsUpTo(c, n)[i], PairsUpTo(c, n)[j])
  {
    if n > 0 {
      PairsUpToOrdered(c, n - 1);
      PairsUpToBounds(c, n - 1);
      var prefix, column := PairsUpTo(c, n - 1), ColumnPairs(c, n - 1);
      forall i, j | 0 <= i < j < |prefix + column|
        ensures DirMajorBefore((prefix + column)[i], (prefix + column)[j])
      {
        if j < |prefix| {
        } else if i < |prefix| {
          assert prefix[i] in prefix;
        }
      }
    }
  }

  lemma {:induction false} PairsUpToComplete(c: TileConfig, n: nat, p: (int, int))
    requires InRange(c, p) && p.0 < c.startDir + n
    ensures p in PairsUpTo(c, n)
  {
    if p.0 == c.startDir + n - 1 {
      assert ColumnPairs(c, n - 1)[p.1 - c.startTile] == p;
    } else {
      PairsUpToComplete(c, n - 1, p);
    }
  }

  /**
   * The enumeration visits exactly the pairs of the range, each once, in
   * directory-major order (strictly increasing, hence without repetition).
   */
  lemma PairsExactlyTheRange(c: TileConfig)
    ensures forall p :: p in Pairs(c) <==> InRange(c, p)
    ensures forall i, j :: 0 <= i < j < |Pairs(c)| ==> DirMajorBefore(Pairs(c)[i], Pairs(c)[j])
    ensures forall i, j :: 0 <= i < j < |Pairs(c)| ==> Pairs(c)[i] != Pairs(c)[j]
  {
    PairsUpToBounds(c, |Directories(c)|);
    PairsUpToOrdered(c, |Directories(c)|);
    forall p | InRange(c, p) ensures p in Pairs(c) {
      PairsUpToComplete(c, |Directories(c)|, p);
    }
  }

  /** A config with directories 1..2 and files 1..2 has the four pairs, directory-major. */
  lemma SmallConfigPairs()
    ensures Pairs(TileConfig(1, 2, 1, 2)) == [(1, 1), (1, 2), (2, 1), (2, 2)]
  {
    var c := TileConfig(1, 2, 1, 2);
    assert ColumnPairs(c, 0) == [(1, 1), (1, 2)];
    assert ColumnPairs(c, 1) == [(2, 1), (2, 2)];
  }
}
