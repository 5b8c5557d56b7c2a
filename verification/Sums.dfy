/**
  Aggregates over tables. A table is a sequence of rows in insertion order; an
  aggregate is a sum of row weights, a query is a filter that keeps row order.
*/
module Sums {
  datatype Option<+T> = None | Some(value: T)

  /** The `SUM(weight)` aggregate of a table; a count is a sum of zeros and ones. */
  function Sum<T>(rows: seq<T>, weight: T -> int): int {
    if |rows| == 0 then 0 else Sum(rows[..|rows| - 1], weight) + weight(rows[|rows| - 1])
  }

  /** The rows that satisfy `keep`, in table order. */
  function Filter<T>(rows: seq<T>, keep: T -> bool): seq<T> {
    if |rows| == 0 then []
    else
      Filter(rows[..|rows| - 1], keep) + (if keep(rows[|rows| - 1]) then [rows[|rows| - 1]] else [])
  }

  lemma SumPush<T>(rows: seq<T>, row: T, weight: T -> int)
    ensures Sum(rows + [row], weight) == Sum(rows, weight) + weight(row)
  {
    assert (rows + [row])[..|rows|] == rows;
  }

  lemma {:induction false} SumUpdate<T>(rows: seq<T>, i: nat, row: T, weight: T -> int)
    requires i < |rows|
    ensures Sum(rows[i := row], weight) == Sum(rows, weight) - weight(rows[i]) + weight(row)
  {
    var last := |rows| - 1;
    if i == last {
      assert rows[i := row][..last] == rows[..last];
    } else {
      assert rows[i := row][..last] == rows[..last][i := row];
      SumUpdate(rows[..last], i, row, weight);
    }
  }

  /** Tables whose rows weigh the same position by position have equal sums. */
  lemma {:induction false} SumMatch<A, B>(a: seq<A>, v: A -> int, b: seq<B>, w: B -> int)
    requires |a| == |b|
    requires forall k :: 0 <= k < |a| ==> v(a[k]) == w(b[k])
    ensures Sum(a, v) == Sum(b, w)
  {
    if |a| > 0 {
      SumMatch(a[..|a| - 1], v, b[..|b| - 1], w);
    }
  }

  /** Position by position, `v` exceeds `w` by `excess`: so do the sums. */
  lemma {:induction false} SumExceeds<A, B>(a: seq<A>, v: A -> int, b: seq<B>, w: B -> int, excess: A -> int)
    requires |a| == |b|
    requires forall k :: 0 <= k < |a| ==> v(a[k]) == w(b[k]) + excess(a[k])
    ensures Sum(a, v) == Sum(b, w) + Sum(a, excess)
  {
    if |a| > 0 {
      SumExceeds(a[..|a| - 1], v, b[..|b| - 1], w, excess);
    }
  }

  lemma {:induction false} SumZero<T>(rows: seq<T>, weight: T -> int)
    requires forall k :: 0 <= k < |rows| ==> weight(rows[k]) == 0
    ensures Sum(rows, weight) == 0
  {
    if |rows| > 0 {
      SumZero(rows[..|rows| - 1], weight);
    }
  }

  lemma FilterPush<T>(rows: seq<T>, row: T, keep: T -> bool)
    ensures Filter(rows + [row], keep) == Filter(rows, keep) + (if keep(row) then [row] else [])
  {
    assert (rows + [row])[..|rows|] == rows;
  }

  lemma {:induction false} FilterNone<T>(rows: seq<T>, keep: T -> bool)
    requires forall k :: 0 <= k < |rows| ==> !keep(rows[k])
    ensures Filter(rows, keep) == []
  {
    if |rows| > 0 {
      FilterNone(rows[..|rows| - 1], keep);
    }
  }

  lemma {:induction false} FilterMember<T>(rows: seq<T>, keep: T -> bool, row: T)
    ensures row in Filter(rows, keep) <==> row in rows && keep(row)
  {
    if |rows| > 0 {
      var last := |rows| - 1;
      FilterMember(rows[..last], keep, row);
      assert rows == rows[..last] + [rows[last]];
    }
  }

  /** Rows outside the filter that weigh nothing do not matter to a sum. */
  lemma {:induction false} SumFilter<T>(rows: seq<T>, keep: T -> bool, weight: T -> int)
    requires forall k :: 0 <= k < |rows| && !keep(rows[k]) ==> weight(rows[k]) == 0
    ensures Sum(Filter(rows, keep), weight) == Sum(rows, weight)
  {
    if |rows| > 0 {
      var last := |rows| - 1;
      SumFilter(rows[..last], keep, weight);
      if keep(rows[last]) {
        SumPush(Filter(rows[..last], keep), rows[last], weight);
      } else {
        assert Filter(rows, keep) == Filter(rows[..last], keep);
      }
    }
  }

  /** The newest row that satisfies `keep`: `.first()` on a table ordered newest first. */
  function Newest<T>(rows: seq<T>, keep: T -> bool): (found: Option<nat>)
    ensures found.Some? ==> found.value < |rows| && keep(rows[found.value])
    ensures found.None? ==> forall k :: 0 <= k < |rows| ==> !keep(rows[k])
    ensures found.Some? ==> forall k :: found.value < k < |rows| ==> !keep(rows[k])
  {
    if |rows| == 0 then None
    else if keep(rows[|rows| - 1]) then Some(|rows| - 1)
    else
      var earlier := rows[..|rows| - 1];
      var found := Newest(earlier, keep);
      assert forall k :: 0 <= k < |earlier| ==> rows[k] == earlier[k];
      found
  }
}
