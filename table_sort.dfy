// Column sorting of a table: the column/direction state a header click cycles
// through, and the sorted copy of the rows it selects.

module TableSorts {
  import opened Wrappers

  datatype Direction = Asc | Desc

  // ---------------------------------------------------------------------------
  // The comparator
  // ---------------------------------------------------------------------------

  /** What the sort callback returns for two rows with sort keys `a` and `b`:
      their difference ascending, the reverse difference descending. */
  function Comparison(direction: Direction, a: int, b: int): int
  {
    if direction == Asc then a - b else b - a
  }

  /** A descending comparison is the negated ascending one. */
  lemma DescendingNegates(a: int, b: int)
    ensures Comparison(Desc, a, b) == -Comparison(Asc, a, b)
    ensures Comparison(Asc, a, b) <= 0 <==> a <= b
    ensures Comparison(Desc, a, b) <= 0 <==> b <= a
  {
  }

  /** A boolean column's sort key: `false` counts 0 and `true` counts 1. */
  function FlagKey(b: bool): int
  {
    if b then 1 else 0
  }

  // ---------------------------------------------------------------------------
  // The sort
  // ---------------------------------------------------------------------------

  /** Every row comes no later than every row after it. */
  predicate Ordered<T>(s: seq<T>, direction: Direction, key: T -> int)
  {
    forall i, j :: 0 <= i < j < |s| ==> Comparison(direction, key(s[i]), key(s[j])) <= 0
  }

  /** A row that comes no later than any row of an ordered list can go in front. */
  lemma PrependOrdered<T>(h: T, s: seq<T>, direction: Direction, key: T -> int)
    requires Ordered(s, direction, key)
    requires forall y :: y in s ==> Comparison(direction, key(h), key(y)) <= 0
    ensures Ordered([h] + s, direction, key)
  {
    forall i, j | 0 <= i < j < |[h] + s|
      ensures Comparison(direction, key(([h] + s)[i]), key(([h] + s)[j])) <= 0
    {
      if i == 0 {
        assert ([h] + s)[j] in s;
      }
    }
  }

  /** A row that compares below the head of an ordered list can go in front. */
  lemma BeforeHeadOrdered<T>(x: T, s: seq<T>, direction: Direction, key: T -> int)
    requires Ordered(s, direction, key)
    requires |s| > 0 && Comparison(direction, key(s[0]), key(x)) > 0
    ensures Ordered([x] + s, direction, key)
  {
    forall y | y in s ensures Comparison(direction, key(x), key(y)) <= 0 {
      var j :| 0 <= j < |s| && s[j] == y;
      assert j == 0 || Comparison(direction, key(s[0]), key(s[j])) <= 0;
    }
    PrependOrdered(x, s, direction, key);
  }

  /** The head of an ordered list stays in front when `x`, which does not compare
      below it, is inserted into the rest. */
  lemma AfterHeadOrdered<T>(s: seq<T>, x: T, rest: seq<T>, direction: Direction, key: T -> int)
    requires Ordered(s, direction, key)
    requires |s| > 0 && Comparison(direction, key(s[0]), key(x)) <= 0
    requires multiset(rest) == multiset(s[1..]) + multiset{x}
    requires Ordered(rest, direction, key)
    ensures Ordered([s[0]] + rest, direction, key)
  {
    forall y | y in rest ensures Comparison(direction, key(s[0]), key(y)) <= 0 {
      assert y in multiset(rest);
      if y != x {
        assert y in multiset(s[1..]);
        var j :| 0 <= j < |s[1..]| && s[1..][j] == y;
        assert s[1..][j] == s[j + 1];
      }
    }
    PrependOrdered(s[0], rest, direction, key);
  }

  /** `x` placed after every row that does not compare above it. */
  function Insert<T>(s: seq<T>, x: T, direction: Direction, key: T -> int): (r: seq<T>)
    ensures multiset(r) == multiset(s) + multiset{x}
    ensures Ordered(s, direction, key) ==> Ordered(r, direction, key)
  {
    if |s| == 0 then [x]
    else if Comparison(direction, key(s[0]), key(x)) > 0 then
      if Ordered(s, direction, key) then
        BeforeHeadOrdered(x, s, direction, key);
        [x] + s
      else [x] + s
    else
      var rest := Insert(s[1..], x, direction, key);
      assert s == [s[0]] + s[1..];
      if Ordered(s, direction, key) then
        assert Ordered(s[1..], direction, key);
        AfterHeadOrdered(s, x, rest, direction, key);
        [s[0]] + rest
      else [s[0]] + rest
  }

  /** The rows sorted by insertion, each row inserted after the earlier ones. */
  function InsertionSort<T>(s: seq<T>, direction: Direction, key: T -> int): (r: seq<T>)
    ensures multiset(r) == multiset(s)
    ensures Ordered(r, direction, key)
  {
    if |s| == 0 then []
    else
      assert s == s[..|s| - 1] + [s[|s| - 1]];
      Insert(InsertionSort(s[..|s| - 1], direction, key), s[|s| - 1], direction, key)
  }

  /** `sortedItems`: the rows themselves when no column or no direction is chosen;
      otherwise a sorted copy, `key(c, row)` being row's value in column `c`. */
  function SortedItems<T, C>(items: seq<T>, column: Option<C>, direction: Option<Direction>,
                             key: (C, T) -> int): (r: seq<T>)
    ensures column.None? || direction.None? ==> r == items
    ensures multiset(r) == multiset(items)
    ensures column.Some? && direction.Some? ==>
      Ordered(r, direction.value, (t: T) => key(column.value, t))
  {
    if column.None? || direction.None? then items
    else InsertionSort(items, direction.value, (t: T) => key(column.value, t))
  }

  /** On a boolean column sorted ascending, no `true` row precedes a `false` row;
      descending, no `false` row precedes a `true` row. */
  lemma FlagOrder<T>(items: seq<T>, direction: Direction, flag: T -> bool)
    ensures var r := InsertionSort(items, direction, (t: T) => FlagKey(flag(t)));
      forall i, j :: 0 <= i < j < |r| ==>
        if direction == Asc then !(flag(r[i]) && !flag(r[j])) else !(!flag(r[i]) && flag(r[j]))
  {
    var key := (t: T) => FlagKey(flag(t));
    var r := InsertionSort(items, direction, key);
    forall i, j | 0 <= i < j < |r|
      ensures if direction == Asc then !(flag(r[i]) && !flag(r[j])) else !(!flag(r[i]) && flag(r[j]))
    {
      assert Comparison(direction, key(r[i]), key(r[j])) <= 0;
    }
  }

  // ---------------------------------------------------------------------------
  // The header-click cycle
  // ---------------------------------------------------------------------------

  /** The next direction on a click of the current column: asc, desc, none, asc... */
  function Cycled(direction: Option<Direction>): Option<Direction>
  {
    match direction
    case Some(Asc) => Some(Desc)
    case Some(Desc) => None
    case None => Some(Asc)
  }

  /** A column is chosen exactly when a direction is. */
  predicate Consistent<C>(column: Option<C>, direction: Option<Direction>)
  {
    column.None? <==> direction.None?
  }

  /** The state after one click, as `sortBy` leaves it. */
  function Clicked<C(==)>(state: (Option<C>, Option<Direction>), column: C): (r: (Option<C>, Option<Direction>))
    ensures state.0 != Some(column) ==> r == (Some(column), Some(Asc))
    ensures state.0 == Some(column) ==> r.1 == Cycled(state.1)
    ensures state.0 == Some(column) ==> (r.0 == None <==> r.1 == None)
    ensures r.0 == Some(column) || r.0 == None
  {
    if state.0 == Some(column) then
      var d := Cycled(state.1);
      (if d.None? then None else state.0, d)
    else (Some(column), Some(Asc))
  }

  /** A click keeps a column chosen exactly when a direction is. */
  lemma ClickedConsistent<C>(state: (Option<C>, Option<Direction>), column: C)
    requires Consistent(state.0, state.1)
    ensures Consistent(Clicked(state, column).0, Clicked(state, column).1)
    ensures Clicked(state, column).0 == Some(column) || Clicked(state, column) == (None, None)
  {
  }

  class TableSort<T, C(==)> {
    /** The rows shown (never reordered by sorting). */
    var items: seq<T>
    var sortColumn: Option<C>
    var sortDirection: Option<Direction>

    constructor (items: seq<T>)
      ensures this.items == items && sortColumn == None && sortDirection == None
    {
      this.items := items;
      sortColumn := None;
      sortDirection := None;
    }

    /** `sortBy`: a click on the current column moves its direction one step along
        the cycle and clears the column when the direction clears; a click on any
        other column sorts by it ascending. */
    method SortBy(column: C)
      modifies this
      ensures items == old(items)
      ensures (sortColumn, sortDirection) == Clicked((old(sortColumn), old(sortDirection)), column)
    {
      if sortColumn == Some(column) {
        sortDirection := if sortDirection == Some(Asc) then Some(Desc)
                         else if sortDirection == Some(Desc) then None
                         else Some(Asc);
        if sortDirection.None? {
          sortColumn := None;
        }
      } else {
        sortColumn := Some(column);
        sortDirection := Some(Asc);
      }
    }
  }

  /** From unsorted, three clicks on one column sort ascending, then descending,
      then return to unsorted. */
  lemma ThreeClicks<C>(column: C)
    ensures Clicked((None, None), column) == (Some(column), Some(Asc))
    ensures Clicked(Clicked((None, None), column), column) == (Some(column), Some(Desc))
    ensures Clicked(Clicked(Clicked((None, None), column), column), column) == (None, None)
  {
  }
}
