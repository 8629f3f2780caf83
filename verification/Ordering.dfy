/** ORDER BY: a set of row ids as a list, by a three-level rank. Rows of equal rank follow their ids, so every query
    of one state breaks ties the same way. */
module Ordering {
  import opened Basics
  import opened Schema

  type Rank = Id -> (int, int, int)

  predicate Before(rank: Rank, a: Id, b: Id) {
    var (a0, a1, a2) := rank(a);
    var (b0, b1, b2) := rank(b);
    a0 < b0 || (a0 == b0 && (a1 < b1 || (a1 == b1 && (a2 < b2 || (a2 == b2 && a < b)))))
  }

  predicate IsFirst(rank: Rank, rows: set<Id>, first: Id) {
    first in rows && forall row :: row in rows && row != first ==> Before(rank, first, row)
  }

  lemma {:induction false} FirstExists(rank: Rank, rows: set<Id>)
    requires rows != {}
    ensures exists first :: first in rows && IsFirst(rank, rows, first)
    decreases |rows|
  {
    var x :| x in rows;
    var rest := rows - {x};
    assert rows == rest + {x};
    if rest == {} {
      assert IsFirst(rank, rows, x);
    } else {
      FirstExists(rank, rest);
      var y :| y in rest && IsFirst(rank, rest, y);
      assert IsFirst(rank, rows, if Before(rank, x, y) then x else y);
    }
  }

  function First(rank: Rank, rows: set<Id>): (first: Id)
    requires rows != {}
    ensures IsFirst(rank, rows, first)
  {
    FirstExists(rank, rows);
    var first :| first in rows && IsFirst(rank, rows, first);
    first
  }

  function Arranged(rank: Rank, rows: set<Id>): seq<Id> {
    if rows == {} then [] else
      var first := First(rank, rows);
      [first] + Arranged(rank, rows - {first})
  }

  lemma {:induction false} ArrangedRows(rank: Rank, rows: set<Id>)
    ensures ToSet(Arranged(rank, rows)) == rows && |Arranged(rank, rows)| == |rows|
    decreases |rows|
  {
    if rows != {} {
      var first := First(rank, rows);
      ArrangedRows(rank, rows - {first});
      assert ToSet(Arranged(rank, rows)) == {first} + ToSet(Arranged(rank, rows - {first}));
    }
  }

  predicate Ascending(rank: Rank, list: seq<Id>) {
    forall i, j :: 0 <= i < j < |list| ==> Before(rank, list[i], list[j])
  }

  lemma {:induction false} PrependAscending(rank: Rank, first: Id, tail: seq<Id>)
    requires Ascending(rank, tail) && forall row :: row in tail ==> Before(rank, first, row)
    ensures Ascending(rank, [first] + tail)
  {
  }

  lemma {:induction false} AscendingDistinct(rank: Rank, list: seq<Id>)
    requires Ascending(rank, list)
    ensures Distinct(list)
  {
  }

  /** The list holds every row once, in rank order. */
  lemma {:induction false} ArrangedExactly(rank: Rank, rows: set<Id>)
    ensures ToSet(Arranged(rank, rows)) == rows && |Arranged(rank, rows)| == |rows|
    ensures Ascending(rank, Arranged(rank, rows)) && Distinct(Arranged(rank, rows))
    decreases |rows|
  {
    ArrangedRows(rank, rows);
    if rows != {} {
      var first := First(rank, rows);
      var rest := rows - {first};
      ArrangedExactly(rank, rest);
      assert forall row :: row in Arranged(rank, rest) ==> row in ToSet(Arranged(rank, rest));
      PrependAscending(rank, first, Arranged(rank, rest));
    }
    AscendingDistinct(rank, Arranged(rank, rows));
  }

  ghost predicate RanksAgree(a: Rank, b: Rank, rows: set<Id>) {
    forall row :: row in rows ==> a(row) == b(row)
  }

  lemma {:induction false} FirstsAgree(a: Rank, b: Rank, rows: set<Id>)
    requires RanksAgree(a, b, rows) && rows != {}
    ensures First(a, rows) == First(b, rows)
  {
    var x, y := First(a, rows), First(b, rows);
    assert x != y ==> Before(a, x, y) && Before(b, y, x);
  }

  /** The list depends only on the ranks of its own rows. */
  lemma {:induction false} ArrangedAgree(a: Rank, b: Rank, rows: set<Id>)
    requires RanksAgree(a, b, rows)
    ensures Arranged(a, rows) == Arranged(b, rows)
    decreases |rows|
  {
    if rows != {} {
      FirstsAgree(a, b, rows);
      ArrangedAgree(a, b, rows - {First(a, rows)});
    }
  }
}
