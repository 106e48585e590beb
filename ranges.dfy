/**
 * Decision tables written as data: an ordered list of (range, value) rows and a first-match
 * lookup with a default for the final `else`. The rule engines are if / else-if chains; these
 * tables are the reference definitions the chains are proved equal to.
 */
module Ranges {
  import opened Wrappers

  /** One comparison (or a closed interval) on a number, as the chains write their conditions. */
  datatype Range =
    | Below(hi: real)              // x < hi
    | AtMost(hi: real)             // x <= hi
    | Above(lo: real)              // x > lo
    | AtLeast(lo: real)            // x >= lo
    | Between(lo: real, hi: real)  // lo <= x && x <= hi

  predicate InRange(x: real, r: Range)
  {
    match r
    case Below(hi) => x < hi
    case AtMost(hi) => x <= hi
    case Above(lo) => x > lo
    case AtLeast(lo) => x >= lo
    case Between(lo, hi) => lo <= x <= hi
  }

  datatype Row<+D> = Row(range: Range, value: D)

  /** The index of the first row whose range contains `x`, as an if / else-if chain tests them. */
  function FirstMatch<D>(rows: seq<Row<D>>, x: real): (k: Option<nat>)
    ensures k.Some? ==> k.value < |rows| && InRange(x, rows[k.value].range)
    ensures k.Some? ==> forall j :: 0 <= j < k.value ==> !InRange(x, rows[j].range)
    ensures k.None? <==> forall j :: 0 <= j < |rows| ==> !InRange(x, rows[j].range)
  {
    if rows == [] then None
    else if InRange(x, rows[0].range) then Some(0)
    else match FirstMatch(rows[1..], x)
      case None => None
      case Some(k) => Some(k + 1)
  }

  /** The value of the first matching row, or `otherwise` when no row matches (the final `else`). */
  function Lookup<D>(rows: seq<Row<D>>, x: real, otherwise: D): D
  {
    match FirstMatch(rows, x)
    case None => otherwise
    case Some(k) => rows[k].value
  }

  /** Whether `x` falls into one of the explicit rows rather than the final `else`. */
  predicate Covered<D>(rows: seq<Row<D>>, x: real)
  {
    exists j :: 0 <= j < |rows| && InRange(x, rows[j].range)
  }

  /** Exactly one row contains `x`. */
  predicate ExactlyOneRow<D>(rows: seq<Row<D>>, x: real)
  {
    exists j :: 0 <= j < |rows| && InRange(x, rows[j].range) && OnlyRow(rows, x, j)
  }

  predicate OnlyRow<D>(rows: seq<Row<D>>, x: real, j: nat)
  {
    forall k :: 0 <= k < |rows| && InRange(x, rows[k].range) ==> k == j
  }

  /** Every number in `a` is smaller than every number in `b`. */
  predicate Before(a: Range, b: Range)
  {
    match (a, b)
    case (Below(h), Above(l)) => h <= l
    case (Below(h), AtLeast(l)) => h <= l
    case (Below(h), Between(l, _)) => h <= l
    case (AtMost(h), Above(l)) => h <= l
    case (AtMost(h), AtLeast(l)) => h < l
    case (AtMost(h), Between(l, _)) => h < l
    case (Between(_, h), Above(l)) => h <= l
    case (Between(_, h), AtLeast(l)) => h < l
    case (Between(_, h), Between(l, _)) => h < l
    case _ => false
  }

  lemma BeforeSeparates(a: Range, b: Range, x: real, y: real)
    requires Before(a, b) && InRange(x, a) && InRange(y, b)
    ensures x < y
  {
  }

  /** A closed interval is written low end first, so that it holds at least one number. */
  predicate WellFormed(r: Range)
  {
    r.Between? ==> r.lo <= r.hi
  }

  /** The rows are listed in ascending order with no overlap between neighbours. */
  predicate Ascending<D>(rows: seq<Row<D>>)
  {
    && (forall i :: 0 <= i < |rows| ==> WellFormed(rows[i].range))
    && (forall i :: 0 <= i < |rows| - 1 ==> Before(rows[i].range, rows[i + 1].range))
  }

  /** In an ascending table every row lies below every later row. */
  lemma {:induction false} AscendingOrdered<D>(rows: seq<Row<D>>, i: nat, j: nat, x: real, y: real)
    requires Ascending(rows) && i < j < |rows|
    requires InRange(x, rows[i].range) && InRange(y, rows[j].range)
    ensures x < y
    decreases j - i
  {
    if j == i + 1 {
      BeforeSeparates(rows[i].range, rows[j].range, x, y);
    } else {
      // Step through a number of row i + 1, which is nonempty.
      var r := rows[i + 1].range;
      assert Before(rows[i].range, r);
      assert Before(r, rows[i + 2].range);
      var w := Witness(r);
      BeforeSeparates(rows[i].range, r, x, w);
      AscendingOrdered(rows, i + 1, j, w, y);
    }
  }

  /** A number inside a well-formed range. */
  function Witness(r: Range): (w: real)
    requires WellFormed(r)
    ensures InRange(w, r)
  {
    match r
    case Below(hi) => hi - 1.0
    case AtMost(hi) => hi
    case Above(lo) => lo + 1.0
    case AtLeast(lo) => lo
    case Between(lo, hi) => lo
  }

  /** No number falls into two rows of an ascending table, so the order of the tests does not matter. */
  lemma NoOverlap<D>(rows: seq<Row<D>>, i: nat, j: nat, x: real)
    requires Ascending(rows) && i < |rows| && j < |rows|
    requires InRange(x, rows[i].range) && InRange(x, rows[j].range)
    ensures i == j
  {
    if i < j {
      AscendingOrdered(rows, i, j, x, x);
    } else if j < i {
      AscendingOrdered(rows, j, i, x, x);
    }
  }

  /** In an ascending table the lookup returns the value of whichever row contains `x`. */
  lemma LookupRow<D>(rows: seq<Row<D>>, x: real, otherwise: D, k: nat)
    requires Ascending(rows) && k < |rows| && InRange(x, rows[k].range)
    ensures Lookup(rows, x, otherwise) == rows[k].value
  {
    var m := FirstMatch(rows, x);
    assert m.Some?;
    NoOverlap(rows, m.value, k, x);
  }

  /** A number no row contains reaches the final `else`. */
  lemma LookupUncovered<D>(rows: seq<Row<D>>, x: real, otherwise: D)
    requires !Covered(rows, x)
    ensures Lookup(rows, x, otherwise) == otherwise
  {
  }
}
