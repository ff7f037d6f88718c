/**
 * What the two tool servers share: the shape of a tool's reply, and rows of a
 * table counted and searched by a predicate, as a `WHERE` clause selects them.
 */
module ToolTables {
  import opened Wrappers

  /** A tool's answer: a result, an `{"error": ...}` reply, or an exception that escapes the tool. */
  datatype Reply<T> = Ok(value: T) | Error(message: string) | Raised(exception: string)

  /** The number of rows satisfying `p`. */
  function Count<T>(rows: seq<T>, p: T -> bool): (n: nat)
    ensures n <= |rows|
  {
    if rows == [] then 0
    else Count(rows[..|rows| - 1], p) + (if p(rows[|rows| - 1]) then 1 else 0)
  }

  lemma CountAppend<T>(rows: seq<T>, row: T, p: T -> bool)
    ensures Count(rows + [row], p) == Count(rows, p) + (if p(row) then 1 else 0)
  {
    assert (rows + [row])[..|rows|] == rows;
  }

  /** No row satisfies `p` iff none is counted. */
  lemma {:induction false} CountZero<T>(rows: seq<T>, p: T -> bool)
    ensures Count(rows, p) == 0 <==> forall i :: 0 <= i < |rows| ==> !p(rows[i])
  {
    if rows != [] {
      var init := rows[..|rows| - 1];
      CountZero(init, p);
      assert forall i :: 0 <= i < |init| ==> init[i] == rows[i];
    }
  }

  /** Replacing one row changes the count by what the old and the new row contribute. */
  lemma {:induction false} CountUpdate<T>(rows: seq<T>, k: nat, row: T, p: T -> bool)
    requires k < |rows|
    ensures Count(rows[k := row], p) == Count(rows, p) - (if p(rows[k]) then 1 else 0) + (if p(row) then 1 else 0)
  {
    var n := |rows|;
    if k == n - 1 {
      assert rows[k := row][..n - 1] == rows[..n - 1];
    } else {
      assert rows[k := row][..n - 1] == rows[..n - 1][k := row];
      CountUpdate(rows[..n - 1], k, row, p);
    }
  }

  /** The index of the first row satisfying `p`. */
  function Find<T>(rows: seq<T>, p: T -> bool): (r: Option<nat>)
    ensures r.None? <==> forall i :: 0 <= i < |rows| ==> !p(rows[i])
    ensures r.Some? ==> r.value < |rows| && p(rows[r.value])
    ensures r.Some? ==> forall i :: 0 <= i < r.value ==> !p(rows[i])
  {
    if rows == [] then None
    else if p(rows[0]) then Some(0)
    else
      var r := Find(rows[1..], p);
      if r.None? then None else Some(r.value + 1)
  }

  /** Two distinct rows satisfying `p` are both counted. */
  lemma {:induction false} CountTwo<T>(rows: seq<T>, i: nat, j: nat, p: T -> bool)
    requires i < j < |rows| && p(rows[i]) && p(rows[j])
    ensures Count(rows, p) >= 2
  {
    var init := rows[..|rows| - 1];
    assert forall k :: 0 <= k < |init| ==> init[k] == rows[k];
    if j == |rows| - 1 {
      CountZero(init, p);
    } else {
      CountTwo(init, i, j, p);
    }
  }

  /** When exactly one row satisfies `p`, any row satisfying it is the one found. */
  lemma CountOneFind<T>(rows: seq<T>, k: nat, p: T -> bool)
    requires Count(rows, p) == 1 && k < |rows| && p(rows[k])
    ensures Find(rows, p) == Some(k)
  {
    var j := Find(rows, p).value;
    if j < k {
      CountTwo(rows, j, k, p);
    }
  }

  /**
   * `scalar_one_or_none()` over the rows `p` selects: no row gives `None`, one
   * row gives that row, more than one raises.
   */
  function OneOrNone<T>(rows: seq<T>, p: T -> bool): (r: Reply<Option<T>>)
    ensures !r.Error?
    ensures r.Raised? <==> Count(rows, p) > 1
    ensures r.Raised? ==> r == Raised("MultipleResultsFound")
    ensures r == Ok(None) <==> forall i :: 0 <= i < |rows| ==> !p(rows[i])
    ensures r.Ok? && r.value.Some? ==>
      && Count(rows, p) == 1
      && p(r.value.value)
      && exists i :: 0 <= i < |rows| && rows[i] == r.value.value
  {
    CountZero(rows, p);
    if Count(rows, p) > 1 then Raised("MultipleResultsFound")
    else
      match Find(rows, p)
      case None => Ok(None)
      case Some(k) => Ok(Some(rows[k]))
  }
}
