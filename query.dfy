/**
 * The meaning of the SQL read shapes the data-access layer issues, stated
 * over a table held as a sequence of rows:
 *   SELECT * FROM t WHERE p                     -- Where
 *   ... ORDER BY key DESC                       -- OrderByDesc
 *   ... LIMIT n                                 -- Limit
 * SQL leaves the order of rows with equal sort keys unspecified; the model
 * keeps them in table order, and no contract below depends on that choice.
 */
module Query {

  /** `s` is in non-increasing order of `key`. */
  predicate SortedDesc<R>(s: seq<R>, key: R -> int) {
    forall i, j :: 0 <= i < j < |s| ==> key(s[i]) >= key(s[j])
  }

  /** WHERE p: the rows satisfying `p`, each as often as it occurs in the table. */
  function Where<R(==,!new)>(rows: seq<R>, p: R -> bool): (r: seq<R>)
    ensures forall x :: multiset(r)[x] == if p(x) then multiset(rows)[x] else 0
    ensures forall x :: x in r <==> x in rows && p(x)
  {
    if rows == [] then []
    else
      assert rows == [rows[0]] + rows[1..];
      var rest := Where(rows[1..], p);
      if p(rows[0]) then [rows[0]] + rest else rest
  }

  /** Places `x` into the sorted `s`, ahead of the rows whose key it equals. */
  function InsertDesc<R(==,!new)>(x: R, s: seq<R>, key: R -> int): (r: seq<R>)
    requires SortedDesc(s, key)
    ensures SortedDesc(r, key)
    ensures multiset(r) == multiset(s) + multiset{x}
    ensures |r| == |s| + 1
    ensures forall i :: 0 <= i < |r| ==> r[i] == x || r[i] in s
  {
    if s == [] || key(x) >= key(s[0]) then [x] + s
    else
      assert s == [s[0]] + s[1..];
      var rest := InsertDesc(x, s[1..], key);
      assert forall i :: 0 <= i < |rest| ==> key(s[0]) >= key(rest[i]) by {
        forall i | 0 <= i < |rest| ensures key(s[0]) >= key(rest[i]) {
          if rest[i] != x {
            var k :| 0 <= k < |s[1..]| && s[1..][k] == rest[i];
            assert s[k + 1] == rest[i];
          }
        }
      }
      [s[0]] + rest
  }

  /** ORDER BY key DESC: the same rows, in non-increasing order of `key`. */
  function OrderByDesc<R(==,!new)>(rows: seq<R>, key: R -> int): (r: seq<R>)
    ensures SortedDesc(r, key)
    ensures multiset(r) == multiset(rows)
    ensures |r| == |rows|
  {
    if rows == [] then []
    else
      assert rows == [rows[0]] + rows[1..];
      InsertDesc(rows[0], OrderByDesc(rows[1..], key), key)
  }

  /** LIMIT n: the first `n` rows, or all of them when there are fewer. */
  function Limit<R>(s: seq<R>, n: nat): (r: seq<R>)
    ensures |r| <= n && |r| <= |s|
    ensures |r| < n ==> r == s
    ensures r == s[..|r|]
  {
    if n < |s| then s[..n] else s
  }

  /** A sorted prefix holds the rows with the largest keys: every row left out sorts no higher than any row kept. */
  lemma {:induction false} PrefixKeepsTop<R(!new)>(s: seq<R>, n: nat, key: R -> int)
    requires SortedDesc(s, key)
    ensures forall x, y :: x in Limit(s, n) && y in s && y !in Limit(s, n) ==> key(x) >= key(y)
  {
    var r := Limit(s, n);
    forall x, y | x in r && y in s && y !in r ensures key(x) >= key(y) {
      var i :| 0 <= i < |r| && r[i] == x;
      var j :| 0 <= j < |s| && s[j] == y;
      assert s[i] == x;
      assert j >= |r|;
    }
  }

  /** A prefix takes nothing the sequence lacks, and omits a row only when it is `n` long. */
  lemma {:induction false} LimitIsPrefix<R(!new)>(s: seq<R>, n: nat)
    ensures multiset(Limit(s, n)) <= multiset(s)
    ensures forall x :: x in Limit(s, n) ==> x in s
    ensures forall y :: y in s && y !in Limit(s, n) ==> |Limit(s, n)| == n
  {
    var r := Limit(s, n);
    assert s == r + s[|r|..];
  }

  /** SELECT ... WHERE p ORDER BY key DESC. */
  function SelectOrdered<R(==,!new)>(rows: seq<R>, p: R -> bool, key: R -> int): (r: seq<R>)
    ensures SortedDesc(r, key)
    ensures forall x :: multiset(r)[x] == if p(x) then multiset(rows)[x] else 0
    ensures forall x :: x in r <==> x in rows && p(x)
  {
    var w := Where(rows, p);
    var r := OrderByDesc(w, key);
    assert forall x :: x in r <==> x in w by {
      forall x ensures x in r <==> x in w {
        assert x in r <==> x in multiset(r);
        assert x in w <==> x in multiset(w);
      }
    }
    r
  }

  /**
   * SELECT ... WHERE p ORDER BY key DESC LIMIT n: at most `n` matching rows;
   * a matching row is left out only when `n` rows were returned, and then
   * every returned row sorts at least as high as it.
   */
  function SelectOrderedLimit<R(==,!new)>(rows: seq<R>, p: R -> bool, key: R -> int, n: nat): (r: seq<R>)
    ensures SortedDesc(r, key)
    ensures |r| <= n
    ensures forall x :: x in r ==> x in rows && p(x)
    ensures multiset(r) <= multiset(rows)
    ensures forall y :: y in rows && p(y) && y !in r ==> |r| == n
    ensures forall x, y :: x in r && y in rows && p(y) && y !in r ==> key(x) >= key(y)
  {
    var s := SelectOrdered(rows, p, key);
    PrefixKeepsTop(s, n, key);
    LimitIsPrefix(s, n);
    Limit(s, n)
  }

  /**
   * SELECT ... WHERE p LIMIT n with no ORDER BY: at most `n` matching rows, and
   * a matching row is left out only when `n` rows were returned.
   */
  function SelectLimit<R(==,!new)>(rows: seq<R>, p: R -> bool, n: nat): (r: seq<R>)
    ensures |r| <= n
    ensures forall x :: x in r ==> x in rows && p(x)
    ensures multiset(r) <= multiset(rows)
    ensures forall y :: y in rows && p(y) && y !in r ==> |r| == n
  {
    var w := Where(rows, p);
    LimitIsPrefix(w, n);
    Limit(w, n)
  }
}
