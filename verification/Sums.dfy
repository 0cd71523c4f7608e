/** Sums of a quantity over the rows of a table. */
module Sums {
  function Sum<T>(f: T -> real, rows: seq<T>): real {
    if rows == [] then 0.0 else Sum(f, rows[..|rows| - 1]) + f(rows[|rows| - 1])
  }

  lemma SumAppend<T>(f: T -> real, rows: seq<T>, row: T)
    ensures Sum(f, rows + [row]) == Sum(f, rows) + f(row)
  {
    assert (rows + [row])[..|rows|] == rows;
  }

  lemma {:induction false} SumUpdate<T>(f: T -> real, rows: seq<T>, i: nat, row: T)
    requires i < |rows|
    ensures Sum(f, rows[i := row]) == Sum(f, rows) - f(rows[i]) + f(row)
  {
    var last := |rows| - 1;
    if i == last {
      assert rows[i := row][..last] == rows[..last];
    } else {
      SumUpdate(f, rows[..last], i, row);
      assert rows[i := row][..last] == rows[..last][i := row];
    }
  }

  lemma {:induction false} SumCovers<T>(f: T -> real, rows: seq<T>, i: nat)
    requires i < |rows|
    requires forall k :: 0 <= k < |rows| ==> f(rows[k]) >= 0.0
    ensures Sum(f, rows) >= f(rows[i])
  {
    SumNonNegative(f, rows[..|rows| - 1]);
    if i < |rows| - 1 {
      SumCovers(f, rows[..|rows| - 1], i);
    }
  }

  lemma {:induction false} SumNonNegative<T>(f: T -> real, rows: seq<T>)
    requires forall k :: 0 <= k < |rows| ==> f(rows[k]) >= 0.0
    ensures Sum(f, rows) >= 0.0
  {
    if rows != [] {
      SumNonNegative(f, rows[..|rows| - 1]);
    }
  }

  lemma {:induction false} SumAgree<T>(f: T -> real, g: T -> real, rows: seq<T>)
    requires forall k :: 0 <= k < |rows| ==> f(rows[k]) == g(rows[k])
    ensures Sum(f, rows) == Sum(g, rows)
  {
    if rows != [] {
      SumAgree(f, g, rows[..|rows| - 1]);
    }
  }

  lemma {:induction false} SumLinear<T>(f: T -> real, g: T -> real, h: T -> real, rows: seq<T>)
    requires forall k :: 0 <= k < |rows| ==> f(rows[k]) == g(rows[k]) - h(rows[k])
    ensures Sum(f, rows) == Sum(g, rows) - Sum(h, rows)
  {
    if rows != [] {
      SumLinear(f, g, h, rows[..|rows| - 1]);
    }
  }

  lemma {:induction false} SumZero<T>(f: T -> real, rows: seq<T>)
    requires forall k :: 0 <= k < |rows| ==> f(rows[k]) == 0.0
    ensures Sum(f, rows) == 0.0
  {
    if rows != [] {
      SumZero(f, rows[..|rows| - 1]);
    }
  }
}
