/**
 * The relational operations the SQL statements of the services are built from,
 * on a table held as a sequence of rows in primary-key order: WHERE filters,
 * UPDATE ... WHERE, DELETE ... WHERE, the affected-row count, and LEFT JOIN.
 * It also states what an AUTO_INCREMENT primary key guarantees.
 */
module Rows {
  import opened Js

  /** The rows satisfying a WHERE condition, in table order. */
  function Filter<R(!new)>(rows: seq<R>, keep: R -> bool): (r: seq<R>)
    ensures |r| <= |rows|
    ensures forall x :: x in r <==> x in rows && keep(x)
  {
    if rows == [] then []
    else
      var rest := Filter(rows[1..], keep);
      if keep(rows[0]) then [rows[0]] + rest else rest
  }

  /** A filter scans left to right: filtering a concatenation concatenates the filtered parts. */
  lemma {:induction false} FilterConcat<R(!new)>(a: seq<R>, b: seq<R>, keep: R -> bool)
    ensures Filter(a + b, keep) == Filter(a, keep) + Filter(b, keep)
  {
    if a == [] {
      assert a + b == b;
    } else {
      assert (a + b)[1..] == a[1..] + b;
      FilterConcat(a[1..], b, keep);
    }
  }

  /** A filter that keeps nothing of the table yields no row. */
  lemma {:induction false} FilterNone<R(!new)>(rows: seq<R>, keep: R -> bool)
    requires forall k :: 0 <= k < |rows| ==> !keep(rows[k])
    ensures Filter(rows, keep) == []
  {
    if rows != [] {
      FilterNone(rows[1..], keep);
    }
  }

  /** A filter that rejects nothing returns the table itself. */
  lemma {:induction false} FilterAll<R(!new)>(rows: seq<R>, keep: R -> bool)
    requires forall k :: 0 <= k < |rows| ==> keep(rows[k])
    ensures Filter(rows, keep) == rows
  {
    if rows != [] {
      FilterAll(rows[1..], keep);
      assert rows == [rows[0]] + rows[1..];
    }
  }

  /** The number of rows an UPDATE or DELETE with this WHERE condition affects. */
  function AffectedRows<R(!new)>(rows: seq<R>, hit: R -> bool): nat
  {
    |Filter(rows, hit)|
  }

  /** `UPDATE table SET ... WHERE hit`: every hit row is changed, every other row is kept. */
  function UpdateWhere<R(!new)>(rows: seq<R>, hit: R -> bool, change: R -> R): (r: seq<R>)
    ensures |r| == |rows|
    ensures forall k :: 0 <= k < |rows| && hit(rows[k]) ==> r[k] == change(rows[k])
    ensures forall k :: 0 <= k < |rows| && !hit(rows[k]) ==> r[k] == rows[k]
  {
    if rows == [] then []
    else [if hit(rows[0]) then change(rows[0]) else rows[0]] + UpdateWhere(rows[1..], hit, change)
  }

  /** An UPDATE whose WHERE condition matches no row leaves the table as it was. */
  lemma UpdateMissLeavesTable<R(!new)>(rows: seq<R>, hit: R -> bool, change: R -> R)
    requires forall k :: 0 <= k < |rows| ==> !hit(rows[k])
    ensures UpdateWhere(rows, hit, change) == rows
  {
  }

  /** An UPDATE that affects no row leaves the table as it was. */
  lemma NoAffectedRowsLeavesTable<R(!new)>(rows: seq<R>, hit: R -> bool, change: R -> R)
    requires AffectedRows(rows, hit) == 0
    ensures UpdateWhere(rows, hit, change) == rows
  {
    forall k | 0 <= k < |rows| ensures !hit(rows[k]) {
      assert rows[k] in rows;
    }
  }

  /** `DELETE FROM table WHERE hit`: the rows that do not satisfy the condition, in table order. */
  function DeleteWhere<R(!new)>(rows: seq<R>, hit: R -> bool): (r: seq<R>)
    ensures forall x :: x in r <==> x in rows && !hit(x)
    ensures |r| + AffectedRows(rows, hit) == |rows|
  {
    if rows == [] then []
    else
      var rest := DeleteWhere(rows[1..], hit);
      if hit(rows[0]) then rest else [rows[0]] + rest
  }

  /** The rows of `right` a left row joins with. */
  function MatchesOf<L, R(!new)>(l: L, right: seq<R>, on: (L, R) -> bool): seq<R>
  {
    Filter(right, (x: R) => on(l, x))
  }

  /** The joined rows produced for one left row: one per match, or one padded with NULL. */
  function JoinOne<L, R(!new)>(l: L, right: seq<R>, on: (L, R) -> bool): (r: seq<(L, Option<R>)>)
    ensures |r| > 0
    ensures forall k :: 0 <= k < |r| ==> r[k].0 == l
  {
    var ms := MatchesOf(l, right, on);
    if ms == [] then [(l, None)]
    else seq(|ms|, k requires 0 <= k < |ms| => (l, Some(ms[k])))
  }

  /** A WHERE condition on the columns of the left table of a join. */
  function OnLeft<L, R>(keep: L -> bool): ((L, Option<R>)) -> bool
  {
    (p: (L, Option<R>)) => keep(p.0)
  }

  /** `left LEFT JOIN right ON on`, in the order of the left table. */
  function LeftJoin<L, R(!new)>(left: seq<L>, right: seq<R>, on: (L, R) -> bool): seq<(L, Option<R>)>
  {
    if left == [] then []
    else JoinOne(left[0], right, on) + LeftJoin(left[1..], right, on)
  }

  /**
   * When every left row matches at most one right row, a LEFT JOIN yields exactly one
   * row per left row, in order: no left row is lost for lack of a match, and none is
   * repeated. The right part is the match when there is one and NULL otherwise.
   */
  lemma {:induction false} LeftJoinOneRowEach<L, R(!new)>(left: seq<L>, right: seq<R>, on: (L, R) -> bool)
    requires forall k :: 0 <= k < |left| ==> |MatchesOf(left[k], right, on)| <= 1
    ensures |LeftJoin(left, right, on)| == |left|
    ensures forall k :: 0 <= k < |left| ==>
      LeftJoin(left, right, on)[k].0 == left[k] &&
      LeftJoin(left, right, on)[k].1 ==
        (if MatchesOf(left[k], right, on) == [] then None else Some(MatchesOf(left[k], right, on)[0]))
  {
    if left != [] {
      var tail := left[1..];
      assert forall k :: 0 <= k < |tail| ==> tail[k] == left[k + 1];
      LeftJoinOneRowEach(tail, right, on);
      var head := JoinOne(left[0], right, on);
      assert |head| == 1;
      forall k | 0 <= k < |left|
        ensures LeftJoin(left, right, on)[k].0 == left[k]
        ensures LeftJoin(left, right, on)[k].1 ==
          (if MatchesOf(left[k], right, on) == [] then None else Some(MatchesOf(left[k], right, on)[0]))
      {
        if k > 0 {
          assert LeftJoin(left, right, on)[k] == LeftJoin(tail, right, on)[k - 1];
        }
      }
    }
  }

  /**
   * A WHERE condition on the left table can be applied before the join: filtering the
   * joined rows equals joining the filtered left rows.
   */
  lemma {:induction false} FilterLeftJoin<L(!new), R(!new)>(left: seq<L>, right: seq<R>, on: (L, R) -> bool, keep: L -> bool)
    ensures Filter(LeftJoin(left, right, on), OnLeft(keep)) == LeftJoin(Filter(left, keep), right, on)
  {
    if left != [] {
      var l, tail := left[0], left[1..];
      var head := JoinOne(l, right, on);
      FilterConcat(head, LeftJoin(tail, right, on), OnLeft(keep));
      FilterLeftJoin(tail, right, on, keep);
      if keep(l) {
        FilterAll(head, OnLeft(keep));
        var kept := [l] + Filter(tail, keep);
        assert kept[0] == l && kept[1..] == Filter(tail, keep);
      } else {
        FilterNone(head, OnLeft(keep));
      }
    }
  }

  /** The SELECT list: every row of a result mapped to the columns it selects, in order. */
  function Project<A, B>(rows: seq<A>, f: A -> B): (r: seq<B>)
    ensures |r| == |rows|
    ensures forall k :: 0 <= k < |rows| ==> r[k] == f(rows[k])
  {
    seq(|rows|, k requires 0 <= k < |rows| => f(rows[k]))
  }

  /** `result[0]`: the first row of a result, or `undefined` for an empty one. */
  function First<R>(rows: seq<R>): (r: Option<R>)
    ensures r.None? <==> rows == []
    ensures r.Some? ==> r.value == rows[0]
  {
    if rows == [] then None else Some(rows[0])
  }

  /** Row keys are below the next AUTO_INCREMENT value. */
  ghost predicate KeysBelow<R(!new)>(rows: seq<R>, key: R -> nat, next: nat)
  {
    forall k :: 0 <= k < |rows| ==> key(rows[k]) < next
  }

  /** Row keys strictly increase along the table (so they are distinct). */
  ghost predicate KeysIncreasing<R(!new)>(rows: seq<R>, key: R -> nat)
  {
    forall j, k :: 0 <= j < k < |rows| ==> key(rows[j]) < key(rows[k])
  }

  /** What an AUTO_INCREMENT primary key guarantees of a table and its counter. */
  ghost predicate AutoIncrement<R(!new)>(rows: seq<R>, key: R -> nat, next: nat)
  {
    0 < next && KeysBelow(rows, key, next) && KeysIncreasing(rows, key)
  }

  lemma InsertKeepsAutoIncrement<R(!new)>(rows: seq<R>, key: R -> nat, next: nat, x: R)
    requires AutoIncrement(rows, key, next) && key(x) == next
    ensures AutoIncrement(rows + [x], key, next + 1)
  {
  }

  lemma BumpKeepsAutoIncrement<R(!new)>(rows: seq<R>, key: R -> nat, next: nat, next': nat)
    requires AutoIncrement(rows, key, next) && next <= next'
    ensures AutoIncrement(rows, key, next')
  {
  }

  lemma UpdateKeepsAutoIncrement<R(!new)>(rows: seq<R>, key: R -> nat, next: nat, hit: R -> bool, change: R -> R)
    requires AutoIncrement(rows, key, next)
    requires forall x :: key(change(x)) == key(x)
    ensures AutoIncrement(UpdateWhere(rows, hit, change), key, next)
  {
  }

  /** Dropping the first row keeps the keys increasing. */
  lemma TailKeepsIncreasing<R(!new)>(rows: seq<R>, key: R -> nat)
    requires rows != [] && KeysIncreasing(rows, key)
    ensures KeysIncreasing(rows[1..], key)
    ensures forall k :: 0 <= k < |rows[1..]| ==> key(rows[0]) < key(rows[1..][k])
  {
    var tail := rows[1..];
    forall k | 0 <= k < |tail| ensures tail[k] == rows[k + 1] {
    }
  }

  /** A row whose key is below every key of an increasing table can be put in front of it. */
  lemma ConsKeepsIncreasing<R(!new)>(x: R, rest: seq<R>, key: R -> nat)
    requires KeysIncreasing(rest, key)
    requires forall k :: 0 <= k < |rest| ==> key(x) < key(rest[k])
    ensures KeysIncreasing([x] + rest, key)
  {
    var r := [x] + rest;
    forall j, k | 0 <= j < k < |r| ensures key(r[j]) < key(r[k]) {
      assert r[k] == rest[k - 1];
      if j > 0 {
        assert r[j] == rest[j - 1];
      }
    }
  }

  lemma {:induction false} DeleteKeepsIncreasing<R(!new)>(rows: seq<R>, key: R -> nat, hit: R -> bool)
    requires KeysIncreasing(rows, key)
    ensures KeysIncreasing(DeleteWhere(rows, hit), key)
  {
    if rows != [] {
      var tail := rows[1..];
      TailKeepsIncreasing(rows, key);
      DeleteKeepsIncreasing(tail, key, hit);
      var rest := DeleteWhere(tail, hit);
      if hit(rows[0]) {
        assert DeleteWhere(rows, hit) == rest;
      } else {
        assert DeleteWhere(rows, hit) == [rows[0]] + rest;
        forall k | 0 <= k < |rest| ensures key(rows[0]) < key(rest[k]) {
          assert rest[k] in tail;
        }
        ConsKeepsIncreasing(rows[0], rest, key);
      }
    }
  }

  lemma DeleteKeepsAutoIncrement<R(!new)>(rows: seq<R>, key: R -> nat, next: nat, hit: R -> bool)
    requires AutoIncrement(rows, key, next)
    ensures AutoIncrement(DeleteWhere(rows, hit), key, next)
  {
    DeleteKeepsIncreasing(rows, key, hit);
    var r := DeleteWhere(rows, hit);
    forall k | 0 <= k < |r| ensures key(r[k]) < next {
      assert r[k] in rows;
    }
  }

  /**
   * On a table with distinct keys, a join condition that pins the key of the right row
   * down (every right row it accepts for `l` has the same key) matches at most one row.
   */
  lemma {:induction false} PinnedKeyMatchesAtMostOne<L, R(!new)>(l: L, right: seq<R>, key: R -> nat, on: (L, R) -> bool)
    requires KeysIncreasing(right, key)
    requires forall x, y :: on(l, x) && on(l, y) ==> key(x) == key(y)
    ensures |MatchesOf(l, right, on)| <= 1
  {
    if right != [] {
      var tail := right[1..];
      assert KeysIncreasing(tail, key) by {
        forall j, k | 0 <= j < k < |tail| ensures key(tail[j]) < key(tail[k]) {
          assert tail[j] == right[j + 1] && tail[k] == right[k + 1];
        }
      }
      PinnedKeyMatchesAtMostOne(l, tail, key, on);
      var rest := MatchesOf(l, tail, on);
      forall x | x in rest ensures key(right[0]) < key(x) {
        var k :| 0 <= k < |tail| && tail[k] == x;
        assert tail[k] == right[k + 1];
      }
      assert rest != [] ==> rest[0] in rest;
      if on(l, right[0]) {
        assert |rest| == 0;
      }
    }
  }

  /**
   * On a table with distinct keys, a WHERE condition that pins the key down (every row
   * it accepts has the same key) matches at most one row.
   */
  lemma {:induction false} PinnedKeyFiltersAtMostOne<R(!new)>(rows: seq<R>, key: R -> nat, keep: R -> bool)
    requires KeysIncreasing(rows, key)
    requires forall x, y :: keep(x) && keep(y) ==> key(x) == key(y)
    ensures |Filter(rows, keep)| <= 1
  {
    if rows != [] {
      var tail := rows[1..];
      assert KeysIncreasing(tail, key) by {
        forall j, k | 0 <= j < k < |tail| ensures key(tail[j]) < key(tail[k]) {
          assert tail[j] == rows[j + 1] && tail[k] == rows[k + 1];
        }
      }
      PinnedKeyFiltersAtMostOne(tail, key, keep);
      if keep(rows[0]) {
        forall k | 0 <= k < |tail| ensures !keep(tail[k]) {
          assert tail[k] == rows[k + 1];
        }
        FilterNone(tail, keep);
      }
    }
  }

  /** The row whose key is `id`, looked up directly (NULL finds nothing): a reference definition for a join on a key. */
  function FindKey<R(!new)>(rows: seq<R>, key: R -> nat, id: Option<int>): (r: Option<R>)
    ensures r.Some? ==> r.value in rows && id == Some(key(r.value))
    ensures r.None? ==> forall x :: x in rows ==> id != Some(key(x))
  {
    if rows == [] then None
    else if id == Some(key(rows[0])) then Some(rows[0])
    else FindKey(rows[1..], key, id)
  }

  /** On distinct keys, a left row whose join condition is "my reference is your key" matches exactly the row `FindKey` finds. */
  lemma KeyJoinMatches<L, R(!new)>(l: L, right: seq<R>, key: R -> nat, on: (L, R) -> bool, ref: Option<int>)
    requires KeysIncreasing(right, key)
    requires forall x :: on(l, x) <==> ref == Some(key(x))
    ensures MatchesOf(l, right, on) == (if FindKey(right, key, ref).Some? then [FindKey(right, key, ref).value] else [])
  {
    PinnedKeyMatchesAtMostOne(l, right, key, on);
    var ms := MatchesOf(l, right, on);
    if FindKey(right, key, ref).Some? {
      assert FindKey(right, key, ref).value in ms;
      assert ms == [ms[0]];
    }
  }

  /**
   * A LEFT JOIN on "the left row's reference is the right row's key", over distinct
   * keys, pairs each left row, in order, with the row its reference names, or with NULL.
   */
  lemma KeyJoin<L, R(!new)>(left: seq<L>, right: seq<R>, key: R -> nat, on: (L, R) -> bool, ref: L -> Option<int>)
    requires KeysIncreasing(right, key)
    requires forall l, x :: on(l, x) <==> ref(l) == Some(key(x))
    ensures |LeftJoin(left, right, on)| == |left|
    ensures forall k :: 0 <= k < |left| ==> LeftJoin(left, right, on)[k] == (left[k], FindKey(right, key, ref(left[k])))
  {
    forall k | 0 <= k < |left| ensures |MatchesOf(left[k], right, on)| <= 1 {
      KeyJoinMatches(left[k], right, key, on, ref(left[k]));
    }
    LeftJoinOneRowEach(left, right, on);
    forall k | 0 <= k < |left| ensures LeftJoin(left, right, on)[k] == (left[k], FindKey(right, key, ref(left[k]))) {
      KeyJoinMatches(left[k], right, key, on, ref(left[k]));
    }
  }

  /**
   * An UPDATE whose hit rows lie outside a view `keep`, and stay outside it, leaves that
   * view unchanged: a write scoped to one tenant is invisible to every other tenant.
   */
  lemma {:induction false} UpdateOutsideView<R(!new)>(rows: seq<R>, hit: R -> bool, change: R -> R, keep: R -> bool)
    requires forall x :: hit(x) ==> !keep(x) && !keep(change(x))
    ensures Filter(UpdateWhere(rows, hit, change), keep) == Filter(rows, keep)
  {
    if rows != [] {
      var r := UpdateWhere(rows, hit, change);
      assert r[1..] == UpdateWhere(rows[1..], hit, change);
      UpdateOutsideView(rows[1..], hit, change, keep);
    }
  }

  /** A DELETE whose hit rows lie outside a view leaves that view unchanged. */
  lemma {:induction false} DeleteOutsideView<R(!new)>(rows: seq<R>, hit: R -> bool, keep: R -> bool)
    requires forall x :: hit(x) ==> !keep(x)
    ensures Filter(DeleteWhere(rows, hit), keep) == Filter(rows, keep)
  {
    if rows != [] {
      DeleteOutsideView(rows[1..], hit, keep);
      if !hit(rows[0]) {
        assert ([rows[0]] + DeleteWhere(rows[1..], hit))[1..] == DeleteWhere(rows[1..], hit);
      }
    }
  }

  /** A filter keeps table order: filtering a table with increasing keys gives increasing keys. */
  lemma {:induction false} FilterKeepsIncreasing<R(!new)>(rows: seq<R>, key: R -> nat, keep: R -> bool)
    requires KeysIncreasing(rows, key)
    ensures KeysIncreasing(Filter(rows, keep), key)
  {
    if rows != [] {
      var tail := rows[1..];
      TailKeepsIncreasing(rows, key);
      FilterKeepsIncreasing(tail, key, keep);
      var rest := Filter(tail, keep);
      if keep(rows[0]) {
        var r := [rows[0]] + rest;
        forall k | 0 <= k < |rest| ensures key(rows[0]) < key(rest[k]) {
          assert rest[k] in tail;
        }
        forall j, k | 0 <= j < k < |r| ensures key(r[j]) < key(r[k]) {
          assert r[k] == rest[k - 1];
          if j > 0 {
            assert r[j] == rest[j - 1];
          }
        }
      }
    }
  }

  /** The first row a filter keeps is the table's first row satisfying the condition. */
  lemma {:induction false} FilterFirst<R(!new)>(rows: seq<R>, keep: R -> bool, k: nat)
    requires k < |rows| && keep(rows[k])
    requires forall j :: 0 <= j < k ==> !keep(rows[j])
    ensures Filter(rows, keep) != [] && Filter(rows, keep)[0] == rows[k]
  {
    if k > 0 {
      var tail := rows[1..];
      assert forall j :: 0 <= j < k - 1 ==> tail[j] == rows[j + 1];
      FilterFirst(tail, keep, k - 1);
    }
  }

  /** A left row has no match exactly when the join condition rejects every right row. */
  lemma MatchesEmpty<L, R(!new)>(l: L, right: seq<R>, on: (L, R) -> bool)
    ensures MatchesOf(l, right, on) == [] <==> forall k :: 0 <= k < |right| ==> !on(l, right[k])
  {
    var ms := MatchesOf(l, right, on);
    if ms != [] {
      assert ms[0] in ms && ms[0] in right && on(l, ms[0]);
      var k :| 0 <= k < |right| && right[k] == ms[0];
    } else {
      forall k | 0 <= k < |right| ensures !on(l, right[k]) {
        assert right[k] !in ms;
      }
    }
  }

  /** The rows produced for one left row: it with one of its matches, or it padded with NULL when it has none. */
  lemma JoinOneMembers<L, R(!new)>(l: L, right: seq<R>, on: (L, R) -> bool, p: (L, Option<R>))
    ensures p in JoinOne(l, right, on) <==>
      && p.0 == l
      && (p.1.Some? ==> p.1.value in right && on(l, p.1.value))
      && (p.1.None? ==> MatchesOf(l, right, on) == [])
  {
    var ms := MatchesOf(l, right, on);
    if ms != [] && p.0 == l && p.1.Some? && p.1.value in right && on(l, p.1.value) {
      assert p.1.value in ms;
      var k :| 0 <= k < |ms| && ms[k] == p.1.value;
      assert JoinOne(l, right, on)[k] == p;
    }
  }

  /**
   * The rows of `left LEFT JOIN right`: a left row with a right row it matches, or a
   * left row that matches nothing, padded with NULL.
   */
  lemma {:induction false} LeftJoinMembers<L, R(!new)>(left: seq<L>, right: seq<R>, on: (L, R) -> bool, p: (L, Option<R>))
    ensures p in LeftJoin(left, right, on) <==>
      && p.0 in left
      && (p.1.Some? ==> p.1.value in right && on(p.0, p.1.value))
      && (p.1.None? ==> MatchesOf(p.0, right, on) == [])
  {
    if left != [] {
      JoinOneMembers(left[0], right, on, p);
      LeftJoinMembers(left[1..], right, on, p);
      assert left == [left[0]] + left[1..];
    }
  }
}
