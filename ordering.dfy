/**
 * The result lists of the queries. A JPQL query with `ORDER BY key` returns the rows that
 * pass its WHERE clause, sorted by that key; rows with equal keys come in an order the
 * database chooses. `Select` states exactly that: the right rows, each once, sorted, with
 * the order among equal keys left unspecified (it is a choice, made by `:|`).
 */
module Ordering {
  import opened Common

  /** `a` may come before `b` in a list sorted ascending or descending. */
  predicate InOrder(a: int, b: int, ascending: bool)
  {
    if ascending then a <= b else a >= b
  }

  /** `s` is sorted by `key` in the given direction. */
  ghost predicate SortedBy<T>(s: seq<T>, key: T -> int, ascending: bool)
  {
    forall i, j :: 0 <= i < j < |s| ==> InOrder(key(s[i]), key(s[j]), ascending)
  }

  /** The row with id `k` may come first among the rows with ids `ids`. */
  ghost predicate IsHead<T>(rows: map<Id, T>, ids: set<Id>, k: Id, key: T -> int, ascending: bool)
    requires ids <= rows.Keys && k in ids
  {
    forall j :: j in ids ==> InOrder(key(rows[k]), key(rows[j]), ascending)
  }

  /** Every non-empty set of rows has a row that may come first. */
  lemma {:induction false} HeadExists<T>(rows: map<Id, T>, ids: set<Id>, key: T -> int, ascending: bool)
    requires ids != {} && ids <= rows.Keys
    ensures exists k :: k in ids && IsHead(rows, ids, k, key, ascending)
    decreases ids
  {
    var k0 :| k0 in ids;
    var rest := ids - {k0};
    if rest == {} {
      assert ids == {k0};
      assert IsHead(rows, ids, k0, key, ascending);
    } else {
      HeadExists(rows, rest, key, ascending);
      var k1 :| k1 in rest && IsHead(rows, rest, k1, key, ascending);
      if InOrder(key(rows[k0]), key(rows[k1]), ascending) {
        assert IsHead(rows, ids, k0, key, ascending);
      } else {
        assert IsHead(rows, ids, k1, key, ascending);
      }
    }
  }

  /**
   * The rows with ids `ids`, each exactly once, sorted by `key`. This is what
   * `SELECT x FROM T x WHERE ... ORDER BY key` returns.
   */
  ghost function Select<T(!new)>(rows: map<Id, T>, ids: set<Id>, key: T -> int, ascending: bool): (r: seq<T>)
    requires ids <= rows.Keys
    ensures |r| == |ids|
    ensures forall x :: x in r <==> exists k :: k in ids && rows[k] == x
    ensures SortedBy(r, key, ascending)
    decreases ids
  {
    if ids == {} then []
    else
      HeadExists(rows, ids, key, ascending);
      var k :| k in ids && IsHead(rows, ids, k, key, ascending);
      var tail := Select(rows, ids - {k}, key, ascending);
      assert forall x :: x in tail ==> InOrder(key(rows[k]), key(x), ascending);
      [rows[k]] + tail
  }

  /** The rows with ids `ids` in an order the database chooses: a query without ORDER BY. */
  ghost function Unordered<T(!new)>(rows: map<Id, T>, ids: set<Id>): (r: seq<T>)
    requires ids <= rows.Keys
    ensures |r| == |ids|
    ensures forall x :: x in r <==> exists k :: k in ids && rows[k] == x
  {
    Select(rows, ids, (x: T) => 0, true)
  }
}
