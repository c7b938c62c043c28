/**
 * What the pages do with fetched rows: JavaScript's `filter`, `length` and
 * `reduce((sum, t) => sum + amount(t), 0)`, and the store's
 * `order(column, { ascending: false })`.
 */
module Query {
  import opened Wrappers

  /** The rows that satisfy `p`, in their original order. */
  function Filter<T(!new)>(rows: seq<T>, p: T -> bool): (r: seq<T>)
    ensures |r| <= |rows|
    ensures forall x :: x in r <==> x in rows && p(x)
  {
    if rows == [] then []
    else (if p(rows[0]) then [rows[0]] else []) + Filter(rows[1..], p)
  }

  /** The sum of `amount` over `rows`, starting from 0. */
  function Total<T>(rows: seq<T>, amount: T -> int): int {
    if rows == [] then 0 else amount(rows[0]) + Total(rows[1..], amount)
  }

  lemma {:induction false} FilterAppend<T(!new)>(a: seq<T>, b: seq<T>, p: T -> bool)
    ensures Filter(a + b, p) == Filter(a, p) + Filter(b, p)
  {
    if a == [] {
      assert a + b == b;
    } else {
      assert (a + b)[1..] == a[1..] + b;
      FilterAppend(a[1..], b, p);
    }
  }

  lemma {:induction false} TotalAppend<T>(a: seq<T>, b: seq<T>, amount: T -> int)
    ensures Total(a + b, amount) == Total(a, amount) + Total(b, amount)
  {
    if a == [] {
      assert a + b == b;
    } else {
      assert (a + b)[1..] == a[1..] + b;
      TotalAppend(a[1..], b, amount);
    }
  }

  /** Every row satisfying `q` satisfies `p`, so `q` selects no more rows than `p`. */
  lemma {:induction false} FilterMonotone<T(!new)>(rows: seq<T>, p: T -> bool, q: T -> bool)
    requires forall x :: q(x) ==> p(x)
    ensures |Filter(rows, q)| <= |Filter(rows, p)|
  {
    if rows != [] {
      FilterMonotone(rows[1..], p, q);
    }
  }

  /** Two conditions that never hold together select at most all the rows between them. */
  lemma {:induction false} FilterDisjoint<T(!new)>(rows: seq<T>, p: T -> bool, q: T -> bool)
    requires forall x :: !(p(x) && q(x))
    ensures |Filter(rows, p)| + |Filter(rows, q)| <= |rows|
  {
    if rows != [] {
      FilterDisjoint(rows[1..], p, q);
    }
  }

  /** A condition and its negation split the rows between them exactly. */
  lemma {:induction false} FilterPartition<T(!new)>(rows: seq<T>, p: T -> bool, q: T -> bool)
    requires forall x :: q(x) == !p(x)
    ensures |Filter(rows, p)| + |Filter(rows, q)| == |rows|
  {
    if rows != [] {
      FilterPartition(rows[1..], p, q);
    }
  }

  /** Filtering by `p` and then by `q` is filtering once by their conjunction `both`. */
  lemma {:induction false} FilterFilter<T(!new)>(rows: seq<T>, p: T -> bool, q: T -> bool, both: T -> bool)
    requires forall x :: both(x) == (p(x) && q(x))
    ensures Filter(Filter(rows, p), q) == Filter(rows, both)
  {
    if rows != [] {
      FilterFilter(rows[1..], p, q, both);
      var head := if p(rows[0]) then [rows[0]] else [];
      FilterAppend(head, Filter(rows[1..], p), q);
      if p(rows[0]) {
        assert Filter(head, q) == (if q(rows[0]) then [rows[0]] else []) + Filter([], q);
      } else {
        assert Filter(head, q) == [];
      }
    }
  }

  /** Taking the row at `i` out of `rows`: its contribution to the count and the sum is its own. */
  lemma FilterRemove<T(!new)>(rows: seq<T>, i: nat, p: T -> bool, amount: T -> int)
    requires i < |rows|
    ensures |Filter(rows, p)| == |Filter([rows[i]], p)| + |Filter(rows[..i] + rows[i + 1..], p)|
    ensures Total(Filter(rows, p), amount)
         == Total(Filter([rows[i]], p), amount) + Total(Filter(rows[..i] + rows[i + 1..], p), amount)
  {
    var front, x, back := rows[..i], rows[i], rows[i + 1..];
    assert rows == front + [x] + back;
    FilterAppend(front + [x], back, p);
    FilterAppend(front, [x], p);
    FilterAppend(front, back, p);
    var ff, fx, fb := Filter(front, p), Filter([x], p), Filter(back, p);
    TotalAppend(ff + fx, fb, amount);
    TotalAppend(ff, fx, amount);
    TotalAppend(ff, fb, amount);
  }

  /** Two permutations of each other stay so once a shared element is taken out of each. */
  lemma MultisetRemove<T>(a: seq<T>, b: seq<T>, i: nat)
    requires multiset(a) == multiset(b)
    requires a != [] && i < |b| && b[i] == a[0]
    ensures multiset(a[1..]) == multiset(b[..i] + b[i + 1..])
  {
    var x := a[0];
    assert a == [x] + a[1..];
    assert b == b[..i] + [x] + b[i + 1..];
    calc {
      multiset(a[1..]) + multiset{x};
      multiset(a);
      multiset(b);
      multiset(b[..i]) + multiset{x} + multiset(b[i + 1..]);
      multiset(b[..i] + b[i + 1..]) + multiset{x};
    }
    assert multiset(a[1..]) == multiset(a[1..]) + multiset{x} - multiset{x};
    assert multiset(b[..i] + b[i + 1..]) == multiset(b[..i] + b[i + 1..]) + multiset{x} - multiset{x};
  }

  /** Counting and summing the rows that satisfy `p` does not depend on the rows' order. */
  lemma {:induction false} FilterPermutation<T(!new)>(a: seq<T>, b: seq<T>, p: T -> bool, amount: T -> int)
    requires multiset(a) == multiset(b)
    ensures |Filter(a, p)| == |Filter(b, p)|
    ensures Total(Filter(a, p), amount) == Total(Filter(b, p), amount)
  {
    if a == [] {
      assert |b| == |multiset(b)| == 0;
    } else {
      assert a[0] in multiset(b);
      assert a[0] in b;
      var i :| 0 <= i < |b| && b[i] == a[0];
      MultisetRemove(a, b, i);
      FilterPermutation(a[1..], b[..i] + b[i + 1..], p, amount);
      FilterRemove(b, i, p, amount);
      FilterHead(a, p, amount);
    }
  }

  /** The first row's contribution to the count and the sum is its own. */
  lemma FilterHead<T(!new)>(rows: seq<T>, p: T -> bool, amount: T -> int)
    requires rows != []
    ensures |Filter(rows, p)| == |Filter([rows[0]], p)| + |Filter(rows[1..], p)|
    ensures Total(Filter(rows, p), amount) == Total(Filter([rows[0]], p), amount) + Total(Filter(rows[1..], p), amount)
  {
    assert [rows[0]][1..] == [];
    TotalAppend(Filter([rows[0]], p), Filter(rows[1..], p), amount);
  }

  // ---------------------------------------------------------------------------
  // Ordering by a column, newest first

  /**
   * `a` comes no later than `b` in a descending order on a nullable column.
   * NULL ranks first, as PostgreSQL orders a descending column by default.
   */
  predicate AtLeast(a: Option<int>, b: Option<int>) {
    a.None? || (b.Some? && a.value >= b.value)
  }

  lemma AtLeastTotal(a: Option<int>, b: Option<int>)
    ensures AtLeast(a, b) || AtLeast(b, a)
  {
  }

  predicate SortedDesc<T>(s: seq<T>, key: T -> Option<int>) {
    forall i, j :: 0 <= i < j < |s| ==> AtLeast(key(s[i]), key(s[j]))
  }

  /** Places `x` into a list already ordered by `key`, descending. */
  function InsertDesc<T(!new)>(x: T, s: seq<T>, key: T -> Option<int>): (r: seq<T>)
    requires SortedDesc(s, key)
    ensures SortedDesc(r, key)
    ensures multiset(r) == multiset(s) + multiset{x}
    ensures forall y :: y in r <==> y == x || y in s
    ensures |r| == |s| + 1
  {
    if s == [] then [x]
    else if AtLeast(key(x), key(s[0])) then
      assert forall j :: 0 < j < |s| ==> AtLeast(key(s[0]), key(s[j]));
      [x] + s
    else
      var rest := InsertDesc(x, s[1..], key);
      assert AtLeast(key(s[0]), key(x)) by { AtLeastTotal(key(x), key(s[0])); }
      assert forall y :: y in rest ==> AtLeast(key(s[0]), key(y)) by {
        forall y | y in rest ensures AtLeast(key(s[0]), key(y)) {
          if y != x {
            var j :| 0 <= j < |s[1..]| && s[1..][j] == y;
            assert s[j + 1] == y;
          }
        }
      }
      assert s == [s[0]] + s[1..];
      [s[0]] + rest
  }

  /**
   * The rows as the store returns them for `order(column, { ascending: false })`:
   * the same rows, each at least the next in `key`. Rows with equal keys keep
   * an order the store does not promise; this model takes one of them.
   */
  function SortDesc<T(!new)>(rows: seq<T>, key: T -> Option<int>): (r: seq<T>)
    ensures SortedDesc(r, key)
    ensures multiset(r) == multiset(rows)
    ensures forall x :: x in r <==> x in rows
    ensures |r| == |rows|
  {
    if rows == [] then []
    else
      assert rows == [rows[0]] + rows[1..];
      InsertDesc(rows[0], SortDesc(rows[1..], key), key)
  }
}
