/**
 * The tile download script for one floor. It first removes the tile
 * directories and `.png` files whose numbers fall outside the floor's range,
 * then visits every (directory, file) pair of the range directory by
 * directory, skipping files that already exist and downloading the others.
 * File system and network effects are parameters: the existing files are a
 * set of pairs, the result of each download attempt is given by a function,
 * and the tiles directory is a list of entries (`None` when it is missing).
 */
module TileDownload {
  import opened Wrappers
  import opened TileGrid

  // ---------------------------------------------------------------------
  // downloadFile

  /** What one download attempt meets: a failed request, or a response with a status and a write that succeeds or fails. */
  datatype Attempt = RequestFailed | Response(status: int, writeSucceeds: bool)

  /** `response.ok`: a status in 200..299. */
  predicate IsOk(status: int)
  {
    200 <= status <= 299
  }

  /**
   * `downloadFile`: true only when the response is ok and the file is
   * written; every failure, a non-ok status included, gives false instead
   * of an exception.
   */
  function DownloadFile(a: Attempt): (r: bool)
    ensures r ==> a.Response? && IsOk(a.status) && a.writeSucceeds
    ensures a.RequestFailed? || !IsOk(a.status) || !a.writeSucceeds ==> !r
  {
    match a
    case RequestFailed => false
    case Response(status, writeSucceeds) => IsOk(status) && writeSucceeds
  }

  // ---------------------------------------------------------------------
  // downloadFloorTiles

  /** The pairs, in order, whose file does not exist yet: the ones a download is attempted for. */
  function Missing(ps: seq<(int, int)>, existing: set<(int, int)>): seq<(int, int)>
  {
    if ps == [] then []
    else Missing(ps[..|ps| - 1], existing) + (if ps[|ps| - 1] in existing then [] else [ps[|ps| - 1]])
  }

  /** How many pairs end with their file present: the existing ones and the successful downloads. */
  function Completed(ps: seq<(int, int)>, existing: set<(int, int)>, attempt: ((int, int)) -> Attempt): nat
  {
    if ps == [] then 0
    else
      var p := ps[|ps| - 1];
      Completed(ps[..|ps| - 1], existing, attempt) + (if p in existing || DownloadFile(attempt(p)) then 1 else 0)
  }

  /** The `total` the script reports: the product of the two range lengths as computed, which is negative when exactly one range is reversed. */
  function Total(c: TileConfig): int
  {
    NumCols(c) * NumRows(c)
  }

  /** A pair is attempted exactly when it is listed and its file does not exist. */
  lemma {:induction false} MissingHolds(ps: seq<(int, int)>, existing: set<(int, int)>, p: (int, int))
    ensures p in Missing(ps, existing) <==> p in ps && p !in existing
  {
    if ps != [] {
      var init := ps[..|ps| - 1];
      MissingHolds(init, existing, p);
      assert ps == init + [ps[|ps| - 1]];
    }
  }

  lemma {:induction false} MissingNoLonger(ps: seq<(int, int)>, existing: set<(int, int)>)
    ensures |Missing(ps, existing)| <= |ps|
  {
    if ps != [] {
      MissingNoLonger(ps[..|ps| - 1], existing);
    }
  }

  /** A list without repeats is attempted without repeats. */
  lemma {:induction false} MissingDistinct(ps: seq<(int, int)>, existing: set<(int, int)>)
    requires forall i, j :: 0 <= i < j < |ps| ==> ps[i] != ps[j]
    ensures forall i, j :: 0 <= i < j < |Missing(ps, existing)| ==> Missing(ps, existing)[i] != Missing(ps, existing)[j]
  {
    if ps != [] {
      var init, last := ps[..|ps| - 1], ps[|ps| - 1];
      MissingDistinct(init, existing);
      assert last !in init;
      MissingHolds(init, existing, last);
    }
  }

  /** A download is attempted for exactly the pairs without a file, each as often as it occurs in the list. */
  lemma MissingExactly(ps: seq<(int, int)>, existing: set<(int, int)>)
    ensures forall p :: p in Missing(ps, existing) <==> p in ps && p !in existing
    ensures |Missing(ps, existing)| <= |ps|
    ensures (forall i, j :: 0 <= i < j < |ps| ==> ps[i] != ps[j]) ==>
      forall i, j :: 0 <= i < j < |Missing(ps, existing)| ==> Missing(ps, existing)[i] != Missing(ps, existing)[j]
  {
    forall p ensures p in Missing(ps, existing) <==> p in ps && p !in existing {
      MissingHolds(ps, existing, p);
    }
    MissingNoLonger(ps, existing);
    if forall i, j :: 0 <= i < j < |ps| ==> ps[i] != ps[j] {
      MissingDistinct(ps, existing);
    }
  }

  /**
   * The count lies between the number of pairs whose file existed and the
   * number of pairs; it reaches the number of pairs when every attempted
   * download succeeds.
   */
  lemma {:induction false} CompletedBounds(ps: seq<(int, int)>, existing: set<(int, int)>, attempt: ((int, int)) -> Attempt)
    ensures |ps| - |Missing(ps, existing)| <= Completed(ps, existing, attempt) <= |ps|
    ensures (forall p :: p in Missing(ps, existing) ==> DownloadFile(attempt(p))) ==> Completed(ps, existing, attempt) == |ps|
  {
    if ps != [] {
      var init := ps[..|ps| - 1];
      CompletedBounds(init, existing, attempt);
      if forall p :: p in Missing(ps, existing) ==> DownloadFile(attempt(p)) {
        forall p | p in Missing(init, existing) ensures DownloadFile(attempt(p)) {
          assert p in Missing(ps, existing);
        }
        if ps[|ps| - 1] !in existing {
          assert ps[|ps| - 1] in Missing(ps, existing);
        }
      }
    }
  }

  /**
   * The script's count never exceeds its `total` for a well-formed range;
   * with exactly one reversed range, `total` is negative while the count is 0.
   */
  lemma CompletedWithinTotal(c: TileConfig, existing: set<(int, int)>, attempt: ((int, int)) -> Attempt)
    ensures NumCols(c) >= 0 && NumRows(c) >= 0 ==> Completed(Pairs(c), existing, attempt) <= Total(c)
    ensures (NumCols(c) < 0) != (NumRows(c) < 0) && NumCols(c) != 0 && NumRows(c) != 0 ==>
      Total(c) < 0 && Completed(Pairs(c), existing, attempt) == 0
  {
    PairsCount(c);
    CompletedBounds(Pairs(c), existing, attempt);
  }

  /** One more visited pair extends both the attempted list and the count by that pair's outcome. */
  lemma DownloadStep(done: seq<(int, int)>, p: (int, int), existing: set<(int, int)>, attempt: ((int, int)) -> Attempt)
    ensures Missing(done + [p], existing) == Missing(done, existing) + (if p in existing then [] else [p])
    ensures Completed(done + [p], existing, attempt) ==
      Completed(done, existing, attempt) + (if p in existing || DownloadFile(attempt(p)) then 1 else 0)
  {
    assert (done + [p])[..|done|] == done;
  }

  /**
   * The loops of `downloadFloorTiles` over `directories` and `fileNumbers`:
   * `requested` lists, in visiting order, the pairs a download is attempted
   * for (target `tiles/<dir>/<fileNum>.png`), and `downloaded` counts the
   * files present afterwards.
   */
  method DownloadFloorTiles(c: TileConfig, existing: set<(int, int)>, attempt: ((int, int)) -> Attempt)
    returns (downloaded: nat, requested: seq<(int, int)>)
    ensures requested == Missing(Pairs(c), existing)
    ensures downloaded == Completed(Pairs(c), existing, attempt)
  {
    var directories := Directories(c);
    downloaded := 0;
    requested := [];
    var i := 0;
    while i < |directories|
      invariant 0 <= i <= |directories|
      invariant requested == Missing(PairsUpTo(c, i), existing)
      invariant downloaded == Completed(PairsUpTo(c, i), existing, attempt)
    {
      downloaded, requested := DownloadDirectory(c, i, existing, attempt, downloaded, requested);
      i := i + 1;
    }
  }

  /** The file loop of `downloadFloorTiles` for directory `directories[i]`. */
  method DownloadDirectory(c: TileConfig, i: nat, existing: set<(int, int)>, attempt: ((int, int)) -> Attempt,
                           downloaded0: nat, requested0: seq<(int, int)>)
    returns (downloaded: nat, requested: seq<(int, int)>)
    requires i < |Directories(c)|
    requires requested0 == Missing(PairsUpTo(c, i), existing)
    requires downloaded0 == Completed(PairsUpTo(c, i), existing, attempt)
    ensures requested == Missing(PairsUpTo(c, i + 1), existing)
    ensures downloaded == Completed(PairsUpTo(c, i + 1), existing, attempt)
  {
    var dir := Directories(c)[i];
    var fileNumbers := FileNumbers(c);
    ghost var before, column := PairsUpTo(c, i), ColumnPairs(c, i);
    downloaded, requested := downloaded0, requested0;
    assert before + column[..0] == before;
    var j := 0;
    while j < |fileNumbers|
      invariant 0 <= j <= |fileNumbers| && |column| == |fileNumbers|
      invariant requested == Missing(before + column[..j], existing)
      invariant downloaded == Completed(before + column[..j], existing, attempt)
    {
      var fileNum := fileNumbers[j];
      ghost var done := before + column[..j];
      assert column[j] == (dir, fileNum);
      PrefixExtend(before, column, j);
      DownloadStep(done, (dir, fileNum), existing, attempt);
      if (dir, fileNum) in existing {
        downloaded := downloaded + 1;
      } else {
        requested := requested + [(dir, fileNum)];
        var success := DownloadFile(attempt((dir, fileNum)));
        if success {
          downloaded := downloaded + 1;
        }
      }
      j := j + 1;
    }
    assert column[..j] == column;
  }

  /** Taking one more element of `b` after `a` appends that element. */
  lemma PrefixExtend<T>(a: seq<T>, b: seq<T>, j: int)
    requires 0 <= j < |b|
    ensures a + b[..j + 1] == (a + b[..j]) + [b[j]]
  {
    assert b[..j + 1] == b[..j] + [b[j]];
  }

  // ---------------------------------------------------------------------
  // parseInt and the names the script writes

  /** The white space `parseInt` skips: the ECMAScript white space and line terminators. */
  predicate IsSpace(ch: char)
  {
    ch == '\t' || ch == '\n' || ch == '\U{000B}' || ch == '\U{000C}' || ch == '\r' || ch == ' ' ||
    ch == '\U{00A0}' || ch == '\U{1680}' || ('\U{2000}' <= ch <= '\U{200A}') || ch == '\U{2028}' ||
    ch == '\U{2029}' || ch == '\U{202F}' || ch == '\U{205F}' || ch == '\U{3000}' || ch == '\U{FEFF}'
  }

  function TrimStart(s: string): (r: string)
    ensures |r| <= |s| && r == s[|s| - |r|..]
    ensures r != [] ==> !IsSpace(r[0])
    ensures s != [] && !IsSpace(s[0]) ==> r == s
  {
    if s != [] && IsSpace(s[0]) then TrimStart(s[1..]) else s
  }

  /** The value of a digit in radices up to 36 (letters in either case); 36 for anything else. */
  function DigitValue(ch: char): (v: nat)
    ensures v <= 36
  {
    if '0' <= ch <= '9' then ch as int - '0' as int
    else if 'a' <= ch <= 'z' then ch as int - 'a' as int + 10
    else if 'A' <= ch <= 'Z' then ch as int - 'A' as int + 10
    else 36
  }

  /** The length of the longest prefix of `s` made of digits of the radix. */
  function DigitRun(s: string, radix: nat): (n: nat)
    ensures n <= |s|
    ensures forall i :: 0 <= i < n ==> DigitValue(s[i]) < radix
    ensures n < |s| ==> DigitValue(s[n]) >= radix
  {
    if s != [] && DigitValue(s[0]) < radix then 1 + DigitRun(s[1..], radix) else 0
  }

  /** The value of a digit string, most significant digit first. */
  function ValueOf(ds: string, radix: nat): nat
  {
    if ds == [] then 0 else ValueOf(ds[..|ds| - 1], radix) * radix + DigitValue(ds[|ds| - 1])
  }

  /** The digits after the sign: a `0x` or `0X` prefix selects radix 16; `None` when no digit follows. */
  function ParseUnsigned(u: string): Option<nat>
  {
    var hex := |u| >= 2 && u[0] == '0' && (u[1] == 'x' || u[1] == 'X');
    var radix := if hex then 16 else 10;
    var w := if hex then u[2..] else u;
    var n := DigitRun(w, radix);
    if n == 0 then None else Some(ValueOf(w[..n], radix))
  }

  /**
   * `parseInt(s)` without a radix: leading white space is skipped, one sign
   * is read, then the digits as `ParseUnsigned` reads them; `None` stands
   * for NaN.
   */
  function ParseInt(s: string): Option<int>
  {
    var t := TrimStart(s);
    if t != [] && t[0] == '-' then
      match ParseUnsigned(t[1..])
      case None => None
      case Some(v) => var negated: int := -(v as int); Some(negated)
    else if t != [] && t[0] == '+' then
      match ParseUnsigned(t[1..])
      case None => None
      case Some(v) => Some(v)
    else
      match ParseUnsigned(t)
      case None => None
      case Some(v) => Some(v)
  }

  function DigitChar(d: nat): char
    requires d < 10
  {
    ('0' as int + d) as char
  }

  /** The decimal rendering of a natural number, as `toString` writes it. */
  function NatToString(n: nat): (s: string)
    ensures s != [] && forall i :: 0 <= i < |s| ==> '0' <= s[i] <= '9'
    ensures |s| > 1 ==> s[0] != '0'
  {
    if n < 10 then [DigitChar(n)] else NatToString(n / 10) + [DigitChar(n % 10)]
  }

  /** The decimal rendering of an integer: `dir.toString()` and the stem of `${fileNum}.png`. */
  function IntToString(n: int): string
  {
    if n < 0 then "-" + NatToString(-n) else NatToString(n)
  }

  lemma {:induction false} ValueOfNatToString(n: nat)
    ensures ValueOf(NatToString(n), 10) == n
  {
    var s := NatToString(n);
    if n >= 10 {
      ValueOfNatToString(n / 10);
      assert s[..|s| - 1] == NatToString(n / 10);
    }
  }

  /** A run of decimal digits is read whole. */
  lemma {:induction false} DigitRunOfDigits(s: string)
    requires forall i :: 0 <= i < |s| ==> '0' <= s[i] <= '9'
    ensures DigitRun(s, 10) == |s|
  {
    if s != [] {
      DigitRunOfDigits(s[1..]);
    }
  }

  /** The unsigned part reads back every decimal rendering. */
  lemma ParseUnsignedOfNatToString(m: nat)
    ensures ParseUnsigned(NatToString(m)) == Some(m)
  {
    var digits := NatToString(m);
    DigitRunOfDigits(digits);
    ValueOfNatToString(m);
    assert digits[..|digits|] == digits;
  }

  /** Past the white space, a minus sign negates the unsigned value, and a leading digit starts it. */
  lemma ParseIntAfterSign(s: string, m: nat)
    requires s != [] && (s[0] == '-' || '0' <= s[0] <= '9')
    ensures s[0] == '-' && ParseUnsigned(s[1..]) == Some(m) ==> ParseInt(s) == Some(-(m as int))
    ensures s[0] != '-' && ParseUnsigned(s) == Some(m) ==> ParseInt(s) == Some(m)
  {
    assert !IsSpace(s[0]);
    assert TrimStart(s) == s;
  }

  lemma ParseIntOfNegative(m: nat)
    ensures ParseInt("-" + NatToString(m)) == Some(-(m as int))
  {
    var digits := NatToString(m);
    ParseUnsignedOfNatToString(m);
    var s := "-" + digits;
    assert s[0] == '-' && s[1..] == digits;
    ParseIntAfterSign(s, m);
  }

  lemma ParseIntOfNatural(m: nat)
    ensures ParseInt(NatToString(m)) == Some(m)
  {
    ParseUnsignedOfNatToString(m);
    ParseIntAfterSign(NatToString(m), m);
  }

  /** `parseInt` reads back every integer `toString` writes. */
  lemma ParseIntOfIntToString(n: int)
    ensures ParseInt(IntToString(n)) == Some(n)
  {
    if n < 0 {
      var m: nat := -n;
      assert IntToString(n) == "-" + NatToString(m);
      ParseIntOfNegative(m);
    } else {
      assert IntToString(n) == NatToString(n);
      ParseIntOfNatural(n);
    }
  }

  // ---------------------------------------------------------------------
  // cleanupFiles

  /** One entry of the tiles directory: a sub-directory with the names it holds, or anything else. */
  datatype Entry = Directory(name: string, files: seq<string>) | NonDirectory(name: string)

  /** Whether the parsed number is out of the range `lo..hi`; NaN fails both comparisons. */
  predicate OutOfRange(p: Option<int>, lo: int, hi: int)
  {
    p.Some? && (p.value < lo || p.value > hi)
  }

  predicate EndsWith(s: string, suffix: string)
  {
    |suffix| <= |s| && s[|s| - |suffix|..] == suffix
  }

  /** `s.split('.')[0]`: everything before the first dot. */
  function Stem(s: string): (r: string)
    ensures |r| <= |s| && r == s[..|r|] && '.' !in r
    ensures |r| < |s| ==> s[|r|] == '.'
  {
    if s == [] || s[0] == '.' then [] else [s[0]] + Stem(s[1..])
  }

  /** A sub-directory is kept unless its parsed name is a number outside the directory range. */
  predicate DirKept(c: TileConfig, name: string)
  {
    !OutOfRange(ParseInt(name), c.startDir, c.endDir)
  }

  /** A file is kept unless it is a `.png` whose stem parses to a number outside the file range. */
  predicate FileKept(c: TileConfig, name: string)
  {
    !(EndsWith(name, ".png") && OutOfRange(ParseInt(Stem(name)), c.startTile, c.endTile))
  }

  /** A directory's names after the cleanup, in listing order. */
  function KeptFiles(c: TileConfig, files: seq<string>): (r: seq<string>)
    ensures forall f :: f in r <==> f in files && FileKept(c, f)
  {
    if files == [] then []
    else
      var f := files[|files| - 1];
      KeptFiles(c, files[..|files| - 1]) + (if FileKept(c, f) then [f] else [])
  }

  /** What remains of one entry: itself, its directory with the kept names, or nothing. */
  function KeptEntry(c: TileConfig, e: Entry): seq<Entry>
  {
    match e
    case NonDirectory(_) => [e]
    case Directory(name, files) => if DirKept(c, name) then [Directory(name, KeptFiles(c, files))] else []
  }

  /** The tiles directory after the cleanup, in listing order. */
  function KeptEntries(c: TileConfig, es: seq<Entry>): seq<Entry>
  {
    if es == [] then [] else KeptEntries(c, es[..|es| - 1]) + KeptEntry(c, es[|es| - 1])
  }

  /**
   * Whether `e` is what the cleanup leaves of some entry of `es`: an entry
   * that is not a directory, or a directory whose name is not a number out
   * of range, holding exactly the kept names of the listed directory.
   */
  ghost predicate Remains(c: TileConfig, es: seq<Entry>, e: Entry)
  {
    (e.NonDirectory? && e in es) ||
    (e.Directory? && DirKept(c, e.name) && exists files :: Directory(e.name, files) in es && e.files == KeptFiles(c, files))
  }

  /** What remains of a list with one more entry is what remains of the list or of that entry. */
  lemma RemainsJoin(c: TileConfig, init: seq<Entry>, x: Entry, e: Entry)
    ensures Remains(c, init + [x], e) <==> Remains(c, init, e) || Remains(c, [x], e)
  {
    if e.Directory? && DirKept(c, e.name) && Remains(c, init + [x], e) && !Remains(c, [x], e) {
      var files :| Directory(e.name, files) in init + [x] && e.files == KeptFiles(c, files);
      assert Directory(e.name, files) in init;
    }
    if Remains(c, init, e) && e.Directory? {
      var files :| Directory(e.name, files) in init && e.files == KeptFiles(c, files);
      assert Directory(e.name, files) in init + [x];
    }
    if Remains(c, [x], e) && e.Directory? {
      var files :| Directory(e.name, files) in [x] && e.files == KeptFiles(c, files);
      assert Directory(e.name, files) in init + [x];
    }
  }

  /** The cleanup of one entry leaves exactly what remains of it. */
  lemma KeptEntryExactly(c: TileConfig, x: Entry, e: Entry)
    ensures e in KeptEntry(c, x) <==> Remains(c, [x], e)
  {
    if x.Directory? && e == Directory(x.name, KeptFiles(c, x.files)) {
      assert Directory(e.name, x.files) in [x];
    }
  }

  /** The cleanup of a listing leaves exactly what remains of its entries, one entry at a time. */
  lemma {:induction false} KeptEntriesHold(c: TileConfig, es: seq<Entry>, e: Entry)
    ensures e in KeptEntries(c, es) <==> Remains(c, es, e)
  {
    if es != [] {
      var init, x := es[..|es| - 1], es[|es| - 1];
      assert es == init + [x];
      KeptEntriesHold(c, init, e);
      KeptEntryExactly(c, x, e);
      RemainsJoin(c, init, x, e);
    }
  }

  /**
   * An entry remains exactly when it is not a directory, or is a directory
   * whose name is not a number out of range; a remaining directory holds
   * exactly its kept names.
   */
  lemma KeptEntriesExactly(c: TileConfig, es: seq<Entry>)
    ensures forall e :: e in KeptEntries(c, es) <==>
      (e.NonDirectory? && e in es) ||
      (e.Directory? && DirKept(c, e.name) && exists files :: Directory(e.name, files) in es && e.files == KeptFiles(c, files))
  {
    forall e ensures e in KeptEntries(c, es) <==> Remains(c, es, e) {
      KeptEntriesHold(c, es, e);
    }
  }

  /**
   * Names written by the download step survive the cleanup exactly when
   * their number is in range: the directory `dir.toString()` and the file
   * `${fileNum}.png`.
   */
  lemma WrittenNamesKeptIffInRange(c: TileConfig, dir: int, fileNum: int)
    ensures DirKept(c, IntToString(dir)) <==> c.startDir <= dir <= c.endDir
    ensures FileKept(c, IntToString(fileNum) + ".png") <==> c.startTile <= fileNum <= c.endTile
  {
    ParseIntOfIntToString(dir);
    ParseIntOfIntToString(fileNum);
    var name := IntToString(fileNum) + ".png";
    assert EndsWith(name, ".png");
    assert '.' !in IntToString(fileNum);
    StemBeforeDot(IntToString(fileNum), ".png");
  }

  lemma {:induction false} StemBeforeDot(s: string, rest: string)
    requires '.' !in s && rest != [] && rest[0] == '.'
    ensures Stem(s + rest) == s
  {
    if s != [] {
      assert (s + rest)[1..] == s[1..] + rest;
      StemBeforeDot(s[1..], rest);
    }
  }

  /** Names without a leading integer parse to NaN, so the cleanup keeps them. */
  lemma NaNNamesKept(c: TileConfig, name: string)
    requires ParseInt(name).None?
    ensures DirKept(c, name)
    ensures ParseInt(Stem(name)).None? ==> FileKept(c, name)
  {
  }

  /** For example the directory `thumbs` and the file `x.png` parse to NaN and stay. */
  lemma NaNNameExamples(c: TileConfig)
    ensures ParseInt("thumbs").None? && DirKept(c, "thumbs")
    ensures FileKept(c, "x.png")
  {
    LetterParsesToNaN("thumbs");
    LetterStemParsesToNaN("x.png");
  }

  /** So does the stem of such a name. */
  lemma LetterStemParsesToNaN(s: string)
    requires s != [] && 'g' <= s[0] <= 'z'
    ensures ParseInt(Stem(s)).None?
  {
    var stem := Stem(s);
    assert stem[0] == s[0];
    LetterParsesToNaN(stem);
  }

  /** A name starting with a letter other than a hexadecimal digit has no leading integer. */
  lemma LetterParsesToNaN(s: string)
    requires s != [] && 'g' <= s[0] <= 'z'
    ensures ParseInt(s).None?
  {
    assert !IsSpace(s[0]);
    assert TrimStart(s) == s;
    assert DigitRun(s, 10) == 0;
  }

  /**
   * `cleanupFiles`: the directory listing is walked once; directories out of
   * range are removed whole, and inside the others out-of-range `.png` files
   * are removed. A missing tiles directory is ignored.
   */
  method CleanupFiles(c: TileConfig, tiles: Option<seq<Entry>>) returns (after: Option<seq<Entry>>)
    ensures tiles.None? ==> after.None?
    ensures tiles.Some? ==> after == Some(KeptEntries(c, tiles.value))
  {
    if tiles.None? {
      return None;
    }
    var dirs := tiles.value;
    var kept: seq<Entry> := [];
    var i := 0;
    while i < |dirs|
      invariant 0 <= i <= |dirs|
      invariant kept == KeptEntries(c, dirs[..i])
    {
      var entry := dirs[i];
      assert dirs[..i + 1][..i] == dirs[..i];
      if entry.Directory? {
        var dirNum := ParseInt(entry.name);
        if !OutOfRange(dirNum, c.startDir, c.endDir) {
          var keptFiles := KeepFiles(c, entry.files);
          kept := kept + [Directory(entry.name, keptFiles)];
        }
      } else {
        kept := kept + [entry];
      }
      i := i + 1;
    }
    assert dirs[..i] == dirs;
    after := Some(kept);
  }

  /** The file loop of `cleanupFiles` inside a kept directory. */
  method KeepFiles(c: TileConfig, files: seq<string>) returns (kept: seq<string>)
    ensures kept == KeptFiles(c, files)
  {
    kept := [];
    var j := 0;
    while j < |files|
      invariant 0 <= j <= |files|
      invariant kept == KeptFiles(c, files[..j])
    {
      var file := files[j];
      assert files[..j + 1][..j] == files[..j];
      if EndsWith(file, ".png") {
        var tileNum := ParseInt(Stem(file));
        if !OutOfRange(tileNum, c.startTile, c.endTile) {
          kept := kept + [file];
        }
      } else {
        kept := kept + [file];
      }
      j := j + 1;
    }
    assert files[..j] == files;
  }
}
