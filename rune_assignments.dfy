/**
 * The rune-assignment planner: a list of player records, each a name and
 * three rune choices, shown as table rows. Each row holds the record object
 * it was built for and the list index it was built with; its name and rune
 * handlers change that object in place, and its delete handler splices the
 * list at the captured index. Every change except adding a record is saved
 * to browser storage, which is a field here holding the last saved list.
 */
module RuneAssignments {
  import opened Wrappers

  /** The plain value of a record: what is written to and read back from storage. */
  datatype Record = Record(playerName: string, runes: seq<string>)

  /** The record `addNewAssignment` appends. */
  const EmptyRecord: Record := Record("", ["", "", ""])

  /**
   * The stored item as `loadAssignments` takes it: absent, the empty string
   * (falsy, so ignored), text that does not parse, or a parsed list.
   */
  datatype Stored = NothingStored | EmptyText | Malformed | Wellformed(records: seq<Record>)

  /** One record object; the row handlers assign its fields. */
  class RuneAssignment {
    var playerName: string
    var runes: seq<string>

    constructor(r: Record)
      ensures Value() == r
    {
      playerName := r.playerName;
      runes := r.runes;
    }

    function Value(): (r: Record)
      reads this
      ensures r.playerName == playerName && r.runes == runes
    {
      Record(playerName, runes)
    }
  }

  /** A table row: the record object it edits and the list index its delete button splices at. */
  datatype Row = Row(assignment: RuneAssignment, index: nat)

  /** `s.splice(index, 1)` for a non-negative index: drops the element at `index`, if there is one. */
  function Splice<T>(s: seq<T>, index: nat): (r: seq<T>)
    ensures index < |s| ==> |r| == |s| - 1
    ensures forall k :: 0 <= k < index && k < |s| ==> k < |r| && r[k] == s[k]
    ensures index < |s| ==> forall k :: index <= k < |r| ==> r[k] == s[k + 1]
    ensures index >= |s| ==> r == s
  {
    if index < |s| then s[..index] + s[index + 1..] else s
  }

  /** A splice inside the list removes one occurrence of the element there and nothing else. */
  lemma SpliceRemovesOne<T>(s: seq<T>, index: nat)
    requires index < |s|
    ensures multiset(Splice(s, index)) + multiset{s[index]} == multiset(s)
  {
    assert s == s[..index] + [s[index]] + s[index + 1..];
  }

  /**
   * Captured indices go stale. After the row at index `i` is deleted, the
   * delete button of a later row, built with index `j`, no longer hits its
   * record: when that record was the last one the splice does nothing, and
   * otherwise it removes the record that followed it. The row's record now
   * sits at `j - 1`.
   */
  lemma StaleIndexAfterEarlierDelete<T>(s: seq<T>, i: nat, j: nat)
    requires i < j < |s|
    ensures Splice(s, i)[j - 1] == s[j]
    ensures j == |s| - 1 ==> Splice(Splice(s, i), j) == Splice(s, i)
    ensures j < |s| - 1 ==> Splice(Splice(s, i), j) == Splice(Splice(s, j + 1), i)
    ensures s[j] in Splice(Splice(s, i), j)
  {
    var once := Splice(s, i);
    assert once[j - 1] == s[j];
    if j < |s| - 1 {
      var a, b := Splice(once, j), Splice(Splice(s, j + 1), i);
      assert |a| == |b|;
      forall k | 0 <= k < |a| ensures a[k] == b[k] {
      }
      assert a[j - 1] == s[j];
    } else {
      assert Splice(once, j)[j - 1] == s[j];
    }
  }

  /** With distinct records, the later row's delete never removes its own record after an earlier delete. */
  lemma StaleDeleteMissesItsRecord<T>(s: seq<T>, i: nat, j: nat)
    requires i < j < |s|
    requires forall a, b :: 0 <= a < b < |s| ==> s[a] != s[b]
    ensures j < |s| - 1 ==> s[j + 1] !in Splice(Splice(s, i), j)
    ensures |Splice(Splice(s, i), j)| == if j < |s| - 1 then |s| - 2 else |s| - 1
  {
    StaleIndexAfterEarlierDelete(s, i, j);
  }

  /** The planner's state: the records, the table rows once the menu is built, and the stored list. */
  class RuneAssignmentsMenu {
    var assignments: seq<RuneAssignment>
    /** Whether `createMenu` has run (`menu` non-null). */
    var menuBuilt: bool
    /** The rows of the table body, in table order. */
    var rows: seq<Row>
    /** The `runeAssignments` item of browser storage. */
    var storage: Stored

    /** The plain values of the records, in list order. */
    function Values(): (vs: seq<Record>)
      reads this, assignments
      ensures |vs| == |assignments|
      ensures forall k :: 0 <= k < |vs| ==> vs[k] == assignments[k].Value()
    {
      seq(|assignments|, k reads this, assignments requires 0 <= k < |assignments| => assignments[k].Value())
    }

    /**
     * The constructor, which runs `loadAssignments`: a parsed stored list
     * becomes the records (each a new object); a malformed one leaves no
     * records; an absent or empty item leaves the initial empty list.
     */
    constructor(stored: Stored)
      ensures storage == stored && !menuBuilt && rows == []
      ensures forall a :: a in assignments ==> fresh(a)
      ensures forall i, j :: 0 <= i < j < |assignments| ==> assignments[i] != assignments[j]
      ensures Values() == if stored.Wellformed? then stored.records else []
    {
      storage := stored;
      menuBuilt := false;
      rows := [];
      var list: seq<RuneAssignment> := [];
      if stored.Wellformed? {
        var records := stored.records;
        var i := 0;
        while i < |records|
          invariant 0 <= i <= |records| && |list| == i
          invariant forall a :: a in list ==> fresh(a)
          invariant forall a, b :: 0 <= a < b < |list| ==> list[a] != list[b]
          invariant forall k :: 0 <= k < i ==> list[k].Value() == records[k]
        {
          var a := new RuneAssignment(records[i]);
          list := list + [a];
          i := i + 1;
        }
      }
      assignments := list;
    }

    /** `saveAssignments`: the stored item becomes the current list. */
    method Save()
      modifies this`storage
      ensures storage == Wellformed(Values())
    {
      storage := Wellformed(Values());
    }

    /**
     * `toggleMenu` on its first call builds the table: one row per record,
     * holding the record and its index in the list. Later calls only show
     * or hide the menu.
     */
    method ToggleMenu()
      modifies this`menuBuilt, this`rows
      ensures menuBuilt
      ensures old(menuBuilt) ==> rows == old(rows)
      ensures !old(menuBuilt) ==>
        |rows| == |assignments| && forall k :: 0 <= k < |rows| ==> rows[k] == Row(assignments[k], k)
    {
      if !menuBuilt {
        var built: seq<Row> := [];
        var k := 0;
        while k < |assignments|
          invariant 0 <= k <= |assignments| && |built| == k
          invariant forall t :: 0 <= t < k ==> built[t] == Row(assignments[t], t)
        {
          built := built + [Row(assignments[k], k)];
          k := k + 1;
        }
        rows := built;
        menuBuilt := true;
      }
    }

    /**
     * `addNewAssignment`: one new empty record is appended, the earlier ones
     * are untouched, nothing is saved, and when the menu exists a row is
     * added for the new record with index `length - 1`.
     */
    method AddNewAssignment()
      modifies this`assignments, this`rows
      ensures |assignments| == |old(assignments)| + 1 && assignments[..|old(assignments)|] == old(assignments)
      ensures fresh(assignments[|old(assignments)|])
      ensures Values() == old(Values()) + [EmptyRecord]
      ensures storage == old(storage)
      ensures rows == if menuBuilt then old(rows) + [Row(assignments[|old(assignments)|], |assignments| - 1)] else old(rows)
    {
      var a := new RuneAssignment(EmptyRecord);
      assignments := assignments + [a];
      if menuBuilt {
        rows := rows + [Row(a, |assignments| - 1)];
      }
    }

    /**
     * The delete button of the row at table position `r`: the list is
     * spliced at the index the row was built with, the list is saved, and
     * the row leaves the table.
     */
    method DeleteRow(r: nat)
      requires r < |rows|
      modifies this`assignments, this`rows, this`storage
      ensures assignments == Splice(old(assignments), old(rows)[r].index)
      ensures Values() == Splice(old(Values()), old(rows)[r].index)
      ensures rows == old(rows)[..r] + old(rows)[r + 1..]
      ensures storage == Wellformed(Values())
    {
      var index := rows[r].index;
      assignments := Splice(assignments, index);
      Save();
      rows := rows[..r] + rows[r + 1..];
    }

    /**
     * The name input of row `r`: its record's name is set, the list is
     * saved. The stored list changes only at the positions that hold the
     * row's record, so an edit on a row whose record was deleted changes
     * nothing that is saved.
     */
    method ChangeName(r: nat, name: string)
      requires r < |rows|
      modifies this`storage, rows[r].assignment
      ensures assignments == old(assignments) && rows == old(rows)
      ensures rows[r].assignment.Value() == Record(name, old(rows[r].assignment.runes))
      ensures forall k :: 0 <= k < |assignments| ==>
        Values()[k] == if assignments[k] == rows[r].assignment then Record(name, old(rows[r].assignment.runes)) else old(Values())[k]
      ensures storage == Wellformed(Values())
    {
      var a := rows[r].assignment;
      a.playerName := name;
      Save();
    }

    /**
     * The rune select `runeIndex` of row `r`: only that rune of the row's
     * record is set, the list is saved. As with names, only positions
     * holding the row's record change.
     */
    method ChangeRune(r: nat, runeIndex: nat, rune: string)
      requires r < |rows| && runeIndex < |rows[r].assignment.runes|
      modifies this`storage, rows[r].assignment
      ensures assignments == old(assignments) && rows == old(rows)
      ensures rows[r].assignment.Value() ==
        Record(old(rows[r].assignment.playerName), old(rows[r].assignment.runes)[runeIndex := rune])
      ensures forall k :: 0 <= k < |assignments| ==>
        Values()[k] == if assignments[k] == rows[r].assignment then rows[r].assignment.Value() else old(Values())[k]
      ensures storage == Wellformed(Values())
    {
      var a := rows[r].assignment;
      a.runes := a.runes[runeIndex := rune];
      Save();
    }
  }

  // ---------------------------------------------------------------------
  // Rune options

  /** The rune names of each circle of `runes.json`, in file order. */
  type Circles = seq<seq<string>>

  /** All rune names, circle by circle. */
  function Flatten(cs: Circles): seq<string>
  {
    if cs == [] then [] else Flatten(cs[..|cs| - 1]) + cs[|cs| - 1]
  }

  /** A name is listed exactly when some circle has it. */
  lemma {:induction false} FlattenMembers(cs: Circles, x: string)
    ensures x in Flatten(cs) <==> exists i, j :: 0 <= i < |cs| && 0 <= j < |cs[i]| && cs[i][j] == x
  {
    if cs != [] {
      var init := cs[..|cs| - 1];
      FlattenMembers(init, x);
      // listed ==> some circle has it
      if x in Flatten(init) {
        var i, j :| 0 <= i < |init| && 0 <= j < |init[i]| && init[i][j] == x;
        assert cs[i][j] == x;
      }
      if x in cs[|cs| - 1] {
        var j :| 0 <= j < |cs[|cs| - 1]| && cs[|cs| - 1][j] == x;
        assert cs[|cs| - 1][j] == x;
      }
      // some circle has it ==> listed
      if exists i, j :: 0 <= i < |cs| && 0 <= j < |cs[i]| && cs[i][j] == x {
        var i, j :| 0 <= i < |cs| && 0 <= j < |cs[i]| && cs[i][j] == x;
        if i < |cs| - 1 {
          assert init[i][j] == x;
          assert x in Flatten(init);
        } else {
          assert cs[|cs| - 1][j] == x;
        }
      }
    }
  }

  /** The default `sort` order: strings compared code point by code point, a prefix first. */
  predicate StringLe(a: string, b: string)
  {
    if a == [] then true
    else if b == [] then false
    else if a[0] != b[0] then a[0] < b[0]
    else StringLe(a[1..], b[1..])
  }

  lemma {:induction false} StringLeTotal(a: string, b: string)
    ensures StringLe(a, b) || StringLe(b, a)
  {
    if a != [] && b != [] && a[0] == b[0] {
      StringLeTotal(a[1..], b[1..]);
    }
  }

  lemma {:induction false} StringLeTrans(a: string, b: string, c: string)
    requires StringLe(a, b) && StringLe(b, c)
    ensures StringLe(a, c)
  {
    if a != [] && b != [] && c != [] && a[0] == b[0] && b[0] == c[0] {
      StringLeTrans(a[1..], b[1..], c[1..]);
    }
  }

  lemma {:induction false} StringLeAntisymmetric(a: string, b: string)
    requires StringLe(a, b) && StringLe(b, a)
    ensures a == b
  {
    if a != [] && b != [] {
      StringLeAntisymmetric(a[1..], b[1..]);
      assert a == [a[0]] + a[1..] && b == [b[0]] + b[1..];
    }
  }

  predicate Sorted(s: seq<string>)
  {
    forall i, j :: 0 <= i < j < |s| ==> StringLe(s[i], s[j])
  }

  /** `x` put into a sorted list before the first element it does not follow. */
  function Insert(x: string, s: seq<string>): (r: seq<string>)
    requires Sorted(s)
    ensures Sorted(r)
    ensures multiset(r) == multiset(s) + multiset{x}
    ensures |r| == |s| + 1
    ensures r != [] && (r[0] == x || (s != [] && r[0] == s[0]))
  {
    if s == [] then [x]
    else if StringLe(x, s[0]) then
      InsertFront(x, s);
      [x] + s
    else
      StringLeTotal(x, s[0]);
      var rest := Insert(x, s[1..]);
      InsertBehind(s[0], rest, x, s[1..]);
      assert s == [s[0]] + s[1..];
      [s[0]] + rest
  }

  lemma InsertFront(x: string, s: seq<string>)
    requires Sorted(s) && s != [] && StringLe(x, s[0])
    ensures Sorted([x] + s)
  {
    forall i, j | 0 <= i < j < |s| + 1 ensures StringLe(([x] + s)[i], ([x] + s)[j]) {
      if i == 0 && j > 1 {
        StringLeTrans(x, s[0], s[j - 1]);
      }
    }
  }

  lemma InsertBehind(y: string, rest: seq<string>, x: string, tail: seq<string>)
    requires Sorted(rest) && rest != [] && (rest[0] == x || (tail != [] && rest[0] == tail[0]))
    requires StringLe(y, x) && (tail != [] ==> StringLe(y, tail[0]))
    ensures Sorted([y] + rest)
  {
    forall i, j | 0 <= i < j < |rest| + 1 ensures StringLe(([y] + rest)[i], ([y] + rest)[j]) {
      if i == 0 {
        assert StringLe(y, rest[0]);
        if j > 1 {
          StringLeTrans(y, rest[0], rest[j - 1]);
        }
      }
    }
  }

  /** `Array.prototype.sort` with the default order. */
  function Sort(s: seq<string>): (r: seq<string>)
    ensures Sorted(r) && multiset(r) == multiset(s)
  {
    if s == [] then []
    else
      assert s == s[..|s| - 1] + [s[|s| - 1]];
      Insert(s[|s| - 1], Sort(s[..|s| - 1]))
  }

  /** The head of a sorted list comes first among its elements. */
  lemma SortedHeadFirst(a: seq<string>, x: string)
    requires Sorted(a) && x in a
    ensures StringLe(a[0], x)
  {
    var i :| 0 <= i < |a| && a[i] == x;
    if i == 0 {
      StringLeTotal(x, x);
    }
  }

  /** The tail of a sorted list is sorted and holds the other elements. */
  lemma SortedTail(a: seq<string>)
    requires Sorted(a) && a != []
    ensures Sorted(a[1..])
    ensures multiset(a[1..]) == multiset(a) - multiset{a[0]}
  {
    assert a == [a[0]] + a[1..];
  }

  /** Two sorted lists with the same elements are the same list: the sorted order is unique. */
  lemma {:induction false} SortedUnique(a: seq<string>, b: seq<string>)
    requires Sorted(a) && Sorted(b) && multiset(a) == multiset(b)
    ensures a == b
  {
    if a != [] {
      SortedSameHead(a, b);
      SortedTail(a);
      SortedTail(b);
      SortedUnique(a[1..], b[1..]);
      assert a == [a[0]] + a[1..] && b == [b[0]] + b[1..];
    }
  }

  /** Two sorted lists with the same elements start with the same element. */
  lemma SortedSameHead(a: seq<string>, b: seq<string>)
    requires Sorted(a) && Sorted(b) && multiset(a) == multiset(b) && a != []
    ensures b != [] && a[0] == b[0]
  {
    assert |a| == |multiset(a)| == |multiset(b)| == |b|;
    assert a[0] in multiset(b) && b[0] in multiset(a);
    SortedHeadFirst(b, a[0]);
    SortedHeadFirst(a, b[0]);
    StringLeAntisymmetric(a[0], b[0]);
  }

  /**
   * `loadRuneOptions` with the fetched `runes.json` as a parameter (`None`
   * when the fetch or parse fails): every rune name of every circle, in
   * sorted order, or none on failure.
   */
  method LoadRuneOptions(data: Option<Circles>) returns (runes: seq<string>)
    ensures data.None? ==> runes == []
    ensures data.Some? ==> Sorted(runes) && multiset(runes) == multiset(Flatten(data.value))
    ensures data.Some? ==> forall x :: x in runes <==> exists i, j :: 0 <= i < |data.value| && 0 <= j < |data.value[i]| && data.value[i][j] == x
  {
    if data.None? {
      return [];
    }
    var circles := data.value;
    var names: seq<string> := [];
    var i := 0;
    while i < |circles|
      invariant 0 <= i <= |circles|
      invariant names == Flatten(circles[..i])
    {
      var j := 0;
      while j < |circles[i]|
        invariant 0 <= j <= |circles[i]|
        invariant names == Flatten(circles[..i]) + circles[i][..j]
      {
        assert circles[i][..j + 1] == circles[i][..j] + [circles[i][j]];
        names := names + [circles[i][j]];
        j := j + 1;
      }
      assert circles[..i + 1][..i] == circles[..i];
      assert circles[i][..j] == circles[i];
      i := i + 1;
    }
    assert circles[..i] == circles;
    runes := Sort(names);
    forall x ensures x in runes <==> exists i, j :: 0 <= i < |circles| && 0 <= j < |circles[i]| && circles[i][j] == x {
      assert x in runes <==> x in multiset(runes);
      assert x in names <==> x in multiset(names);
      FlattenMembers(circles, x);
    }
  }
}
