/**
 * The pandas operations the gene engine relies on, stated over sequences of
 * rows: a column is a function from a row to a value, and a table is the
 * sequence of its rows in index order.
 */
module Frame {
  import opened Wrappers

  // ---------------------------------------------------------------------
  // Columns and counting
  // ---------------------------------------------------------------------

  /** `df[column]`: the values of one column, in row order. */
  function Column<T, K>(rows: seq<T>, key: T -> K): (col: seq<K>)
    ensures |col| == |rows|
    ensures forall i :: 0 <= i < |rows| ==> col[i] == key(rows[i])
  {
    seq(|rows|, i requires 0 <= i < |rows| => key(rows[i]))
  }

  /** Number of occurrences of `x` in `s`. */
  function Count<T(==)>(s: seq<T>, x: T): (n: nat)
    ensures n <= |s|
    ensures n > 0 <==> x in s
  {
    if s == [] then 0 else (if s[0] == x then 1 else 0) + Count(s[1..], x)
  }

  /** Number of elements of `s` that belong to `ks`. */
  function CountIn<T>(s: seq<T>, ks: set<T>): (n: nat)
    ensures ks == {} ==> n == 0
  {
    if s == [] then 0 else (if s[0] in ks then 1 else 0) + CountIn(s[1..], ks)
  }

  lemma {:induction false} CountAppend<T>(a: seq<T>, b: seq<T>, x: T)
    ensures Count(a + b, x) == Count(a, x) + Count(b, x)
  {
    if a == [] {
      assert a + b == b;
    } else {
      assert (a + b)[1..] == a[1..] + b;
      CountAppend(a[1..], b, x);
    }
  }

  // ---------------------------------------------------------------------
  // Subsequences
  // ---------------------------------------------------------------------

  /** `a` is obtained from `b` by deleting rows, keeping the order of the rest. */
  predicate IsSubsequence<T(==)>(a: seq<T>, b: seq<T>)
    decreases |b|
  {
    a == [] || (b != [] && ((a[0] == b[0] && IsSubsequence(a[1..], b[1..])) || IsSubsequence(a, b[1..])))
  }

  lemma {:induction false} SubsequenceMembers<T>(a: seq<T>, b: seq<T>)
    requires IsSubsequence(a, b)
    ensures |a| <= |b|
    ensures forall x :: x in a ==> x in b
    decreases |b|
  {
    if a != [] {
      if a[0] == b[0] && IsSubsequence(a[1..], b[1..]) {
        SubsequenceMembers(a[1..], b[1..]);
        forall x | x in a ensures x in b {
          if x != a[0] {
            assert x in a[1..];
          }
        }
      } else {
        SubsequenceMembers(a, b[1..]);
      }
    }
  }

  // ---------------------------------------------------------------------
  // Filtering: df[df[column] == value]
  // ---------------------------------------------------------------------

  /** The rows whose `key` equals `v`, in their original order. */
  function SelectEq<T, K(==)>(rows: seq<T>, key: T -> K, v: K): seq<T>
  {
    if rows == [] then []
    else
      var rest := SelectEq(rows[1..], key, v);
      if key(rows[0]) == v then [rows[0]] + rest else rest
  }

  /**
   * The selection keeps exactly the rows whose key is `v`, in order, and
   * there are as many of them as `v` occurs in the key column.
   */
  lemma {:induction false} SelectEqSound<T, K>(rows: seq<T>, key: T -> K, v: K)
    ensures IsSubsequence(SelectEq(rows, key, v), rows)
    ensures forall x :: x in SelectEq(rows, key, v) ==> key(x) == v
    ensures forall x :: x in rows && key(x) == v ==> x in SelectEq(rows, key, v)
    ensures |SelectEq(rows, key, v)| == Count(Column(rows, key), v)
  {
    if rows != [] {
      assert Column(rows, key) == [key(rows[0])] + Column(rows[1..], key);
      var rest := SelectEq(rows[1..], key, v);
      SelectEqSound(rows[1..], key, v);
      assert forall x :: x in rows ==> x == rows[0] || x in rows[1..];
      if key(rows[0]) == v {
        assert forall x :: x in [rows[0]] + rest ==> x == rows[0] || x in rest;
      }
    }
  }

  // ---------------------------------------------------------------------
  // pd.merge(left, right, on=key), how="inner"
  // ---------------------------------------------------------------------

  /** The pairs of `l` with each right row that has the same key, in right order. */
  function Matches<L, R, K(==)>(l: L, right: seq<R>, lkey: L -> K, rkey: R -> K): (r: seq<(L, R)>)
    ensures forall p :: p in r ==> p.0 == l && p.1 in right && rkey(p.1) == lkey(l)
    ensures forall f :: f in right && rkey(f) == lkey(l) ==> (l, f) in r
    ensures |r| == Count(Column(right, rkey), lkey(l))
  {
    if right == [] then []
    else
      assert Column(right, rkey) == [rkey(right[0])] + Column(right[1..], rkey);
      assert forall x :: x in right ==> x == right[0] || x in right[1..];
      (if rkey(right[0]) == lkey(l) then [(l, right[0])] else []) + Matches(l, right[1..], lkey, rkey)
  }

  /**
   * An inner merge: for each left row in order, one output row per right row
   * with the same key. A row survives exactly when its key occurs on both
   * sides.
   */
  function InnerJoin<L, R, K(==)>(left: seq<L>, right: seq<R>, lkey: L -> K, rkey: R -> K): (r: seq<(L, R)>)
    ensures forall p :: p in r ==> p.0 in left && p.1 in right && lkey(p.0) == rkey(p.1)
    ensures forall l, f :: l in left && f in right && lkey(l) == rkey(f) ==> (l, f) in r
  {
    if left == [] then []
    else
      assert forall x :: x in left ==> x == left[0] || x in left[1..];
      Matches(left[0], right, lkey, rkey) + InnerJoin(left[1..], right, lkey, rkey)
  }

  /** The number of rows an inner merge produces: each left row once per right match. */
  function JoinSize<L, R, K(==)>(left: seq<L>, right: seq<R>, lkey: L -> K, rkey: R -> K): nat
  {
    if left == [] then 0 else Count(Column(right, rkey), lkey(left[0])) + JoinSize(left[1..], right, lkey, rkey)
  }

  lemma {:induction false} InnerJoinSize<L, R, K>(left: seq<L>, right: seq<R>, lkey: L -> K, rkey: R -> K)
    ensures |InnerJoin(left, right, lkey, rkey)| == JoinSize(left, right, lkey, rkey)
  {
    if left != [] {
      InnerJoinSize(left[1..], right, lkey, rkey);
    }
  }

  /** With distinct right keys, the merge never grows the left table. */
  lemma {:induction false} InnerJoinUniqueRight<L, R, K>(left: seq<L>, right: seq<R>, lkey: L -> K, rkey: R -> K)
    requires forall i, j :: 0 <= i < j < |right| ==> rkey(right[i]) != rkey(right[j])
    ensures |InnerJoin(left, right, lkey, rkey)| <= |left|
  {
    InnerJoinSize(left, right, lkey, rkey);
    JoinSizeUniqueRight(left, right, lkey, rkey);
  }

  lemma {:induction false} JoinSizeUniqueRight<L, R, K>(left: seq<L>, right: seq<R>, lkey: L -> K, rkey: R -> K)
    requires forall i, j :: 0 <= i < j < |right| ==> rkey(right[i]) != rkey(right[j])
    ensures JoinSize(left, right, lkey, rkey) <= |left|
  {
    if left != [] {
      JoinSizeUniqueRight(left[1..], right, lkey, rkey);
      CountDistinct(Column(right, rkey), lkey(left[0]));
    }
  }

  /** A value occurs at most once in a sequence of distinct values. */
  lemma {:induction false} CountDistinct<T>(s: seq<T>, x: T)
    requires forall i, j :: 0 <= i < j < |s| ==> s[i] != s[j]
    ensures Count(s, x) <= 1
  {
    if s != [] {
      CountDistinct(s[1..], x);
      if s[0] == x {
        assert x !in s[1..] by {
          forall k | 0 <= k < |s[1..]| ensures s[1..][k] != x {
            assert s[k + 1] != s[0];
          }
        }
      }
    }
  }

  // ---------------------------------------------------------------------
  // drop_duplicates(subset=key, keep="first") and Series.unique()
  // ---------------------------------------------------------------------

  /** The first row of `rows` whose key is `k`, if any. */
  function FirstWithKey<T, K(==)>(rows: seq<T>, key: T -> K, k: K): Option<T>
  {
    if rows == [] then None
    else if key(rows[0]) == k then Some(rows[0])
    else FirstWithKey(rows[1..], key, k)
  }

  /** The index of the first row whose key is `k`, or `|rows|` when no row has it. */
  function FirstPos<T, K(==)>(rows: seq<T>, key: T -> K, k: K): (p: nat)
    ensures p <= |rows|
    ensures p < |rows| ==> key(rows[p]) == k
  {
    if rows == [] then 0
    else if key(rows[0]) == k then 0
    else 1 + FirstPos(rows[1..], key, k)
  }

  /** No row before FirstPos has the key. */
  lemma {:induction false} FirstPosIsFirst<T, K>(rows: seq<T>, key: T -> K, k: K, i: nat)
    requires i < FirstPos(rows, key, k)
    ensures key(rows[i]) != k
  {
    if i > 0 {
      FirstPosIsFirst(rows[1..], key, k, i - 1);
    }
  }

  /**
   * Walks the rows in order and keeps a row when its key is not yet in `seen`:
   * drop_duplicates with keep="first". What the walk keeps is stated by
   * KeepFirstFromSubsequence, KeepFirstFromDistinct, KeepFirstFromCovers,
   * KeepFirstFromEarliest and KeepFirstFromOrder below.
   */
  function KeepFirstFrom<T, K(==)>(rows: seq<T>, key: T -> K, seen: set<K>): (r: seq<T>)
    ensures forall x :: x in r ==> key(x) !in seen
  {
    if rows == [] then []
    else
      var k := key(rows[0]);
      if k in seen then KeepFirstFrom(rows[1..], key, seen)
      else
        var rest := KeepFirstFrom(rows[1..], key, seen + {k});
        assert forall x :: x in [rows[0]] + rest ==> x == rows[0] || x in rest;
        [rows[0]] + rest
  }

  /** The kept rows form a subsequence of the input. */
  lemma {:induction false} KeepFirstFromSubsequence<T, K>(rows: seq<T>, key: T -> K, seen: set<K>)
    ensures IsSubsequence(KeepFirstFrom(rows, key, seen), rows)
  {
    if rows != [] {
      var k, tail := key(rows[0]), rows[1..];
      if k in seen {
        KeepFirstFromSubsequence(tail, key, seen);
        assert KeepFirstFrom(rows, key, seen) == KeepFirstFrom(tail, key, seen);
        assert IsSubsequence(KeepFirstFrom(tail, key, seen), rows);
      } else {
        KeepFirstFromSubsequence(tail, key, seen + {k});
        var rest := KeepFirstFrom(tail, key, seen + {k});
        assert KeepFirstFrom(rows, key, seen) == [rows[0]] + rest;
        assert ([rows[0]] + rest)[1..] == rest;
      }
    }
  }

  /** The kept rows have pairwise distinct keys. */
  lemma {:induction false} KeepFirstFromDistinct<T, K>(rows: seq<T>, key: T -> K, seen: set<K>)
    ensures forall i, j :: 0 <= i < j < |KeepFirstFrom(rows, key, seen)| ==>
      key(KeepFirstFrom(rows, key, seen)[i]) != key(KeepFirstFrom(rows, key, seen)[j])
  {
    if rows != [] {
      var k, tail := key(rows[0]), rows[1..];
      if k in seen {
        KeepFirstFromDistinct(tail, key, seen);
        assert KeepFirstFrom(rows, key, seen) == KeepFirstFrom(tail, key, seen);
      } else {
        KeepFirstFromDistinct(tail, key, seen + {k});
        var rest := KeepFirstFrom(tail, key, seen + {k});
        assert KeepFirstFrom(rows, key, seen) == [rows[0]] + rest;
        var r := [rows[0]] + rest;
        forall i, j | 0 <= i < j < |r| ensures key(r[i]) != key(r[j]) {
          assert r[j] == rest[j - 1] && rest[j - 1] in rest;
          assert key(rest[j - 1]) !in seen + {k};
          if i > 0 {
            assert r[i] == rest[i - 1];
            assert key(rest[i - 1]) != key(rest[j - 1]);
          } else {
            assert r[i] == rows[0];
          }
        }
      }
    }
  }

  /** Every key of the input outside `seen` is still represented. */
  lemma {:induction false} KeepFirstFromCovers<T, K>(rows: seq<T>, key: T -> K, seen: set<K>)
    ensures forall x :: x in rows && key(x) !in seen ==> exists y :: y in KeepFirstFrom(rows, key, seen) && key(y) == key(x)
  {
    if rows != [] {
      var k, tail := key(rows[0]), rows[1..];
      assert forall x :: x in rows ==> x == rows[0] || x in tail;
      if k in seen {
        KeepFirstFromCovers(tail, key, seen);
        assert KeepFirstFrom(rows, key, seen) == KeepFirstFrom(tail, key, seen);
      } else {
        KeepFirstFromCovers(tail, key, seen + {k});
        var rest := KeepFirstFrom(tail, key, seen + {k});
        assert KeepFirstFrom(rows, key, seen) == [rows[0]] + rest;
        assert forall x :: x in rest ==> x in [rows[0]] + rest;
      }
    }
  }

  /** Each kept row is the earliest row of the input that has its key. */
  lemma {:induction false} KeepFirstFromEarliest<T, K>(rows: seq<T>, key: T -> K, seen: set<K>)
    ensures forall x :: x in KeepFirstFrom(rows, key, seen) ==> FirstWithKey(rows, key, key(x)) == Some(x)
  {
    if rows != [] {
      var k, tail := key(rows[0]), rows[1..];
      if k in seen {
        KeepFirstFromEarliest(tail, key, seen);
        assert KeepFirstFrom(rows, key, seen) == KeepFirstFrom(tail, key, seen);
      } else {
        KeepFirstFromEarliest(tail, key, seen + {k});
        var rest := KeepFirstFrom(tail, key, seen + {k});
        assert KeepFirstFrom(rows, key, seen) == [rows[0]] + rest;
        assert forall x :: x in [rows[0]] + rest ==> x == rows[0] || x in rest;
      }
    }
  }

  /**
   * Where a kept row comes from: the head of the input when that starts a
   * new key, otherwise a row kept from the tail, whose first position then
   * moves up by one.
   */
  lemma KeepFirstFromShift<T, K>(rows: seq<T>, key: T -> K, seen: set<K>, i: nat)
    requires i < |KeepFirstFrom(rows, key, seen)|
    ensures rows != []
    ensures var k := key(rows[0]);
      var r := KeepFirstFrom(rows, key, seen);
      var rest := KeepFirstFrom(rows[1..], key, if k in seen then seen else seen + {k});
      if k !in seen && i == 0 then r[i] == rows[0] && FirstPos(rows, key, key(r[i])) == 0
      else
        var i' := if k in seen then i else i - 1;
        i' < |rest| && r[i] == rest[i'] && FirstPos(rows, key, key(r[i])) == 1 + FirstPos(rows[1..], key, key(rest[i']))
  {
    var k, tail := key(rows[0]), rows[1..];
    var seen' := if k in seen then seen else seen + {k};
    var rest := KeepFirstFrom(tail, key, seen');
    var r := KeepFirstFrom(rows, key, seen);
    assert r == if k in seen then rest else [rows[0]] + rest;
    if k in seen || i > 0 {
      var i' := if k in seen then i else i - 1;
      assert r[i] == rest[i'] && rest[i'] in rest;
    }
  }

  /** Of two rows KeepFirstFrom keeps, the earlier one's key appears first in the input. */
  lemma {:induction false} KeepFirstFromOrder<T, K>(rows: seq<T>, key: T -> K, seen: set<K>, i: nat, j: nat)
    requires i < j < |KeepFirstFrom(rows, key, seen)|
    ensures var r := KeepFirstFrom(rows, key, seen);
      FirstPos(rows, key, key(r[i])) < FirstPos(rows, key, key(r[j]))
  {
    KeepFirstFromShift(rows, key, seen, i);
    KeepFirstFromShift(rows, key, seen, j);
    var k := key(rows[0]);
    if k in seen {
      var r, rest := KeepFirstFrom(rows, key, seen), KeepFirstFrom(rows[1..], key, seen);
      assert r[i] == rest[i];
      assert r[j] == rest[j];
      assert FirstPos(rows, key, key(r[i])) == 1 + FirstPos(rows[1..], key, key(rest[i]));
      KeepFirstFromOrder(rows[1..], key, seen, i, j);
      assert FirstPos(rows[1..], key, key(rest[i])) < FirstPos(rows[1..], key, key(rest[j]));
    } else if i > 0 {
      var r, rest := KeepFirstFrom(rows, key, seen), KeepFirstFrom(rows[1..], key, seen + {k});
      assert r[i] == rest[i - 1];
      assert r[j] == rest[j - 1];
      KeepFirstFromOrder(rows[1..], key, seen + {k}, i - 1, j - 1);
      assert FirstPos(rows[1..], key, key(rest[i - 1])) < FirstPos(rows[1..], key, key(rest[j - 1]));
    } else {
      var r := KeepFirstFrom(rows, key, seen);
      assert FirstPos(rows, key, key(r[i])) == 0;
      assert FirstPos(rows, key, key(r[j])) > 0;
    }
  }

  /** drop_duplicates(subset=key, keep="first") on a whole table. */
  function KeepFirst<T, K(==)>(rows: seq<T>, key: T -> K): seq<T>
  {
    KeepFirstFrom(rows, key, {})
  }

  /** keep="first" deduplication leaves exactly what KeptFirst describes. */
  lemma KeepFirstKept<T, K>(rows: seq<T>, key: T -> K)
    ensures KeptFirst(KeepFirst(rows, key), rows, key)
  {
    var r := KeepFirst(rows, key);
    KeepFirstFromSubsequence(rows, key, {});
    KeepFirstFromDistinct(rows, key, {});
    KeepFirstFromCovers(rows, key, {});
    KeepFirstFromEarliest(rows, key, {});
    forall i, j | 0 <= i < j < |r|
      ensures FirstPos(rows, key, key(r[i])) < FirstPos(rows, key, key(r[j]))
    {
      KeepFirstFromOrder(rows, key, {}, i, j);
    }
  }

  /**
   * `r` is what keep="first" deduplication by `key` leaves of `rows`: a
   * subsequence with pairwise distinct keys, holding every key of `rows`,
   * each through the earliest row that has it, in order of first appearance.
   */
  ghost predicate KeptFirst<T, K>(r: seq<T>, rows: seq<T>, key: T -> K)
  {
    IsSubsequence(r, rows) &&
    (forall i, j :: 0 <= i < j < |r| ==> key(r[i]) != key(r[j])) &&
    (forall x :: x in rows ==> exists y :: y in r && key(y) == key(x)) &&
    (forall x :: x in r ==> FirstWithKey(rows, key, key(x)) == Some(x)) &&
    (forall i, j :: 0 <= i < j < |r| ==> FirstPos(rows, key, key(r[i])) < FirstPos(rows, key, key(r[j])))
  }

  function Id<T>(x: T): T { x }

  /** Series.unique(): the distinct values in order of first appearance. */
  function Unique<T(==)>(s: seq<T>): seq<T>
  {
    KeepFirst(s, Id)
  }

  lemma UniqueProperties<T>(s: seq<T>)
    ensures IsSubsequence(Unique(s), s)
    ensures forall i, j :: 0 <= i < j < |Unique(s)| ==> Unique(s)[i] != Unique(s)[j]
    ensures forall x :: x in s <==> x in Unique(s)
    ensures forall i, j :: 0 <= i < j < |Unique(s)| ==> FirstPos(s, Id, Unique(s)[i]) < FirstPos(s, Id, Unique(s)[j])
  {
    var u := Unique(s);
    KeepFirstKept(s, Id);
    SubsequenceMembers(u, s);
    forall x | x in s ensures x in u {
      var y :| y in u && Id(y) == Id(x);
    }
    forall i, j | 0 <= i < j < |u|
      ensures u[i] != u[j] && FirstPos(s, Id, u[i]) < FirstPos(s, Id, u[j])
    {
      assert Id(u[i]) != Id(u[j]);
      assert Id(u[i]) == u[i] && Id(u[j]) == u[j];
      KeepFirstFromOrder(s, Id, {}, i, j);
    }
  }

  /** Looking a value up in a column is looking it up by key in the rows. */
  lemma {:induction false} FirstPosColumn<T, K>(rows: seq<T>, key: T -> K, k: K)
    ensures FirstPos(Column(rows, key), Id, k) == FirstPos(rows, key, k)
  {
    if rows != [] {
      assert Column(rows, key)[1..] == Column(rows[1..], key);
      FirstPosColumn(rows[1..], key, k);
    }
  }

  // ---------------------------------------------------------------------
  // Tallies: the {"genre", "count"} records and Series.value_counts()
  // ---------------------------------------------------------------------

  datatype ValueCount<T> = ValueCount(value: T, count: nat)

  /** One record per value of `keys`, with its number of occurrences in `s`. */
  function TallyOf<T(==)>(keys: seq<T>, s: seq<T>): (r: seq<ValueCount<T>>)
    ensures |r| == |keys|
    ensures forall i :: 0 <= i < |keys| ==> r[i] == ValueCount(keys[i], Count(s, keys[i]))
  {
    if keys == [] then [] else [ValueCount(keys[0], Count(s, keys[0]))] + TallyOf(keys[1..], s)
  }

  function Tally<T(==)>(s: seq<T>): seq<ValueCount<T>>
  {
    TallyOf(Unique(s), s)
  }

  function SumCount<T>(vs: seq<ValueCount<T>>): nat
  {
    if vs == [] then 0 else vs[0].count + SumCount(vs[1..])
  }

  lemma {:induction false} TallyOfCons<T>(keys: seq<T>, x: T, t: seq<T>)
    ensures SumCount(TallyOf(keys, [x] + t)) == SumCount(TallyOf(keys, t)) + Count(keys, x)
  {
    if keys != [] {
      assert ([x] + t)[1..] == t;
      TallyOfCons(keys[1..], x, t);
    }
  }

  lemma {:induction false} CountInAdd<T>(t: seq<T>, seen: set<T>, x: T)
    requires x !in seen
    ensures CountIn(t, seen + {x}) == CountIn(t, seen) + Count(t, x)
  {
    if t != [] {
      CountInAdd(t[1..], seen, x);
    }
  }

  lemma {:induction false} TallySumFrom<T>(s: seq<T>, seen: set<T>)
    ensures SumCount(TallyOf(KeepFirstFrom(s, Id, seen), s)) + CountIn(s, seen) == |s|
  {
    if s != [] {
      var x, t := s[0], s[1..];
      assert s == [x] + t;
      if x in seen {
        var u := KeepFirstFrom(t, Id, seen);
        assert KeepFirstFrom(s, Id, seen) == u;
        TallyOfCons(u, x, t);
        assert x !in u by {
          assert Id(x) in seen;
        }
        TallySumFrom(t, seen);
      } else {
        var v := KeepFirstFrom(t, Id, seen + {x});
        assert KeepFirstFrom(s, Id, seen) == [x] + v;
        assert TallyOf([x] + v, s) == [ValueCount(x, Count(s, x))] + TallyOf(v, s);
        assert ([x] + v)[1..] == v;
        TallyOfCons(v, x, t);
        assert x !in v by {
          assert Id(x) in seen + {x};
        }
        TallySumFrom(t, seen + {x});
        CountInAdd(t, seen, x);
      }
    }
  }

  /**
   * The tally of a column lists each distinct value once, in order of first
   * appearance, with a positive count, and the counts add up to the number
   * of rows.
   */
  lemma TallyProperties<T>(s: seq<T>)
    ensures |Tally(s)| == |Unique(s)|
    ensures forall i :: 0 <= i < |Tally(s)| ==> Tally(s)[i].value == Unique(s)[i]
    ensures forall i :: 0 <= i < |Tally(s)| ==> Tally(s)[i].count == Count(s, Tally(s)[i].value) > 0
    ensures forall i, j :: 0 <= i < j < |Tally(s)| ==> Tally(s)[i].value != Tally(s)[j].value
    ensures forall i :: 0 <= i < |Tally(s)| ==> Tally(s)[i].value in s
    ensures forall k :: 0 <= k < |s| ==> exists i :: 0 <= i < |Tally(s)| && Tally(s)[i].value == s[k]
    ensures SumCount(Tally(s)) == |s|
  {
    TallyEntries(s);
    TallyCovers(s);
    TallySumFrom(s, {});
  }

  lemma TallyEntries<T>(s: seq<T>)
    ensures |Tally(s)| == |Unique(s)|
    ensures forall i :: 0 <= i < |Tally(s)| ==> Tally(s)[i] == ValueCount(Unique(s)[i], Count(s, Unique(s)[i]))
    ensures forall i :: 0 <= i < |Tally(s)| ==> Tally(s)[i].value in s && Tally(s)[i].count > 0
    ensures forall i, j :: 0 <= i < j < |Tally(s)| ==> Tally(s)[i].value != Tally(s)[j].value
  {
    var u, t := Unique(s), Tally(s);
    UniqueProperties(s);
    assert t == TallyOf(u, s);
    forall i | 0 <= i < |t|
      ensures t[i].value in s && t[i].count > 0
    {
      assert u[i] in u;
    }
  }

  /** The tally lists the values in order of first appearance. */
  lemma TallyOrder<T>(s: seq<T>)
    ensures forall i, j :: 0 <= i < j < |Tally(s)| ==> FirstPos(s, Id, Tally(s)[i].value) < FirstPos(s, Id, Tally(s)[j].value)
  {
    var u, t := Unique(s), Tally(s);
    UniqueProperties(s);
    assert t == TallyOf(u, s);
  }

  lemma TallyCovers<T>(s: seq<T>)
    ensures forall k :: 0 <= k < |s| ==> exists i :: 0 <= i < |Tally(s)| && Tally(s)[i].value == s[k]
  {
    var u, t := Unique(s), Tally(s);
    UniqueProperties(s);
    assert t == TallyOf(u, s);
    forall k | 0 <= k < |s|
      ensures exists i :: 0 <= i < |t| && t[i].value == s[k]
    {
      assert s[k] in u;
      var i :| 0 <= i < |u| && u[i] == s[k];
      assert t[i].value == s[k];
    }
  }

  /** Extending the keys by one value extends the tally by that value's record. */
  lemma TallyOfSnoc<T>(keys: seq<T>, x: T, s: seq<T>)
    ensures TallyOf(keys + [x], s) == TallyOf(keys, s) + [ValueCount(x, Count(s, x))]
  {
    var a, b := TallyOf(keys + [x], s), TallyOf(keys, s) + [ValueCount(x, Count(s, x))];
    assert |a| == |b|;
    forall i | 0 <= i < |a|
      ensures a[i] == b[i]
    {
      assert (keys + [x])[i] == if i < |keys| then keys[i] else x;
    }
  }

  /** A tally over one more key of a list extends the tally over the shorter prefix. */
  lemma TallyPrefixStep<T>(keys: seq<T>, i: nat, s: seq<T>)
    requires i < |keys|
    ensures TallyOf(keys[..i + 1], s) == TallyOf(keys[..i], s) + [ValueCount(keys[i], Count(s, keys[i]))]
  {
    assert keys[..i + 1] == keys[..i] + [keys[i]];
    TallyOfSnoc(keys[..i], keys[i], s);
  }

  /**
   * One step of the tally loop: counting the rows a filter keeps for the
   * next value appends that value's record to the tally so far.
   */
  lemma TallyRowStep<T, K>(rows: seq<T>, key: T -> K, keys: seq<K>, i: nat)
    requires i < |keys|
    ensures TallyOf(keys[..i + 1], Column(rows, key)) ==
      TallyOf(keys[..i], Column(rows, key)) + [ValueCount(keys[i], |SelectEq(rows, key, keys[i])|)]
  {
    SelectEqSound(rows, key, keys[i]);
    TallyPrefixStep(keys, i, Column(rows, key));
  }

  /**
   * The tally of a column read from rows: positive counts, distinct values,
   * every row's value listed, counts adding up to the number of rows.
   */
  lemma TallyOfRows<T, K>(rows: seq<T>, key: T -> K)
    ensures var t := Tally(Column(rows, key));
      (forall i :: 0 <= i < |t| ==> t[i].count > 0) &&
      (forall i, j :: 0 <= i < j < |t| ==> t[i].value != t[j].value) &&
      (forall k :: 0 <= k < |rows| ==> exists i :: 0 <= i < |t| && t[i].value == key(rows[k])) &&
      SumCount(t) == |rows|
  {
    var col := Column(rows, key);
    var t := Tally(col);
    TallyEntries(col);
    TallyCovers(col);
    TallySumFrom(col, {});
    forall k | 0 <= k < |rows|
      ensures exists i :: 0 <= i < |t| && t[i].value == key(rows[k])
    {
      assert col[k] == key(rows[k]);
    }
  }

  /** The tally of a column read from rows lists the values in order of first appearance. */
  lemma TallyOfRowsOrder<T, K>(rows: seq<T>, key: T -> K)
    ensures forall i, j :: 0 <= i < j < |Tally(Column(rows, key))| ==>
      FirstPos(rows, key, Tally(Column(rows, key))[i].value) < FirstPos(rows, key, Tally(Column(rows, key))[j].value)
  {
    var t := Tally(Column(rows, key));
    TallyOrder(Column(rows, key));
    forall i, j | 0 <= i < j < |t|
      ensures FirstPos(rows, key, t[i].value) < FirstPos(rows, key, t[j].value)
    {
      FirstPosColumn(rows, key, t[i].value);
      FirstPosColumn(rows, key, t[j].value);
    }
  }

  // ---------------------------------------------------------------------
  // Stable sorting, nlargest and nsmallest
  // ---------------------------------------------------------------------

  predicate SortedDesc<T>(s: seq<T>, metric: T -> real)
  {
    forall i, j :: 0 <= i < j < |s| ==> metric(s[i]) >= metric(s[j])
  }

  /** Puts `x` before the first row whose metric does not exceed its own. */
  function InsertDesc<T>(x: T, s: seq<T>, metric: T -> real): seq<T>
  {
    if s == [] || metric(x) >= metric(s[0]) then [x] + s
    else [s[0]] + InsertDesc(x, s[1..], metric)
  }

  /** Inserting adds exactly the one row. */
  lemma {:induction false} InsertDescPerm<T>(x: T, s: seq<T>, metric: T -> real)
    ensures |InsertDesc(x, s, metric)| == |s| + 1
    ensures multiset(InsertDesc(x, s, metric)) == multiset(s) + multiset{x}
  {
    if s != [] && metric(x) < metric(s[0]) {
      assert s == [s[0]] + s[1..];
      InsertDescPerm(x, s[1..], metric);
    }
  }

  lemma {:induction false} InsertSorted<T>(x: T, s: seq<T>, metric: T -> real)
    requires SortedDesc(s, metric)
    ensures SortedDesc(InsertDesc(x, s, metric), metric)
  {
    if s != [] && metric(x) < metric(s[0]) {
      var rest := InsertDesc(x, s[1..], metric);
      var r := [s[0]] + rest;
      assert InsertDesc(x, s, metric) == r;
      InsertSorted(x, s[1..], metric);
      InsertBelowHead(x, s, metric);
      forall i, j | 0 <= i < j < |r| ensures metric(r[i]) >= metric(r[j]) {
        if i == 0 {
          assert r[j] == rest[j - 1];
        } else {
          assert r[i] == rest[i - 1] && r[j] == rest[j - 1];
        }
      }
    }
  }

  /** Inserting a row below the head of sorted rows leaves nothing above the head. */
  lemma InsertBelowHead<T>(x: T, s: seq<T>, metric: T -> real)
    requires SortedDesc(s, metric) && s != [] && metric(x) < metric(s[0])
    ensures forall k :: 0 <= k < |InsertDesc(x, s[1..], metric)| ==> metric(s[0]) >= metric(InsertDesc(x, s[1..], metric)[k])
  {
    var rest := InsertDesc(x, s[1..], metric);
    forall k | 0 <= k < |rest| ensures metric(s[0]) >= metric(rest[k]) {
      InsertedFrom(x, s[1..], metric, k);
      if rest[k] != x {
        var m :| 0 <= m < |s[1..]| && s[1..][m] == rest[k];
        assert s[m + 1] == rest[k];
      }
    }
  }

  /** Every row of an insertion result is the inserted row or a row of the input. */
  lemma InsertedFrom<T>(x: T, s: seq<T>, metric: T -> real, k: nat)
    requires k < |InsertDesc(x, s, metric)|
    ensures InsertDesc(x, s, metric)[k] == x || InsertDesc(x, s, metric)[k] in s
  {
    var r := InsertDesc(x, s, metric);
    InsertDescPerm(x, s, metric);
    assert r[k] in multiset(s) + multiset{x};
  }

  /** Inserting a row whose key is new into rows with distinct keys keeps the keys distinct. */
  lemma {:induction false} InsertDistinct<T, K>(x: T, s: seq<T>, metric: T -> real, key: T -> K)
    requires forall i, j :: 0 <= i < j < |s| ==> key(s[i]) != key(s[j])
    requires forall y :: y in s ==> key(y) != key(x)
    ensures forall i, j :: 0 <= i < j < |InsertDesc(x, s, metric)| ==>
      key(InsertDesc(x, s, metric)[i]) != key(InsertDesc(x, s, metric)[j])
  {
    if s == [] || metric(x) >= metric(s[0]) {
      var r := [x] + s;
      assert InsertDesc(x, s, metric) == r;
      forall i, j | 0 <= i < j < |r| ensures key(r[i]) != key(r[j]) {
        if i == 0 {
          assert r[j] == s[j - 1];
        } else {
          assert r[i] == s[i - 1] && r[j] == s[j - 1];
        }
      }
    } else {
      var rest := InsertDesc(x, s[1..], metric);
      var r := [s[0]] + rest;
      assert InsertDesc(x, s, metric) == r;
      InsertDistinct(x, s[1..], metric, key);
      forall k | 0 <= k < |rest| ensures key(s[0]) != key(rest[k]) {
        InsertedFrom(x, s[1..], metric, k);
        if rest[k] != x {
          var m :| 0 <= m < |s[1..]| && s[1..][m] == rest[k];
          assert s[m + 1] == rest[k];
        }
      }
      forall i, j | 0 <= i < j < |r| ensures key(r[i]) != key(r[j]) {
        if i == 0 {
          assert r[j] == rest[j - 1];
        } else {
          assert r[i] == rest[i - 1] && r[j] == rest[j - 1];
        }
      }
    }
  }

  /** A stable sort by descending metric (ties keep their input order). */
  function SortDesc<T>(s: seq<T>, metric: T -> real): (r: seq<T>)
    ensures |r| == |s|
    ensures multiset(r) == multiset(s)
    ensures SortedDesc(r, metric)
  {
    if s == [] then []
    else
      assert s == [s[0]] + s[1..];
      InsertSorted(s[0], SortDesc(s[1..], metric), metric);
      InsertDescPerm(s[0], SortDesc(s[1..], metric), metric);
      InsertDesc(s[0], SortDesc(s[1..], metric), metric)
  }

  /** Sorting rows with distinct keys keeps them distinct. */
  lemma {:induction false} SortDistinct<T, K>(s: seq<T>, metric: T -> real, key: T -> K)
    requires forall i, j :: 0 <= i < j < |s| ==> key(s[i]) != key(s[j])
    ensures forall i, j :: 0 <= i < j < |SortDesc(s, metric)| ==>
      key(SortDesc(s, metric)[i]) != key(SortDesc(s, metric)[j])
  {
    if s != [] {
      var q := SortDesc(s[1..], metric);
      SortDistinct(s[1..], metric, key);
      forall y | y in q ensures key(y) != key(s[0]) {
        assert y in multiset(s[1..]);
        var m :| 0 <= m < |s[1..]| && s[1..][m] == y;
        assert s[m + 1] == y;
      }
      InsertDistinct(s[0], q, metric, key);
    }
  }

  /**
   * Inserting a row never moves it past a row of equal metric: among the
   * rows of any one metric value, the inserted row comes first.
   */
  lemma {:induction false} InsertSelect<T>(x: T, q: seq<T>, metric: T -> real, v: real)
    ensures SelectEq(InsertDesc(x, q, metric), metric, v) ==
      (if metric(x) == v then [x] else []) + SelectEq(q, metric, v)
  {
    var h := if metric(x) == v then [x] else [];
    if q == [] || metric(x) >= metric(q[0]) {
      var r := [x] + q;
      assert InsertDesc(x, q, metric) == r;
      assert r[0] == x && r[1..] == q;
      assert SelectEq(r, metric, v) == h + SelectEq(q, metric, v);
    } else {
      var rest := InsertDesc(x, q[1..], metric);
      var r := [q[0]] + rest;
      var g := if metric(q[0]) == v then [q[0]] else [];
      assert InsertDesc(x, q, metric) == r;
      assert r[0] == q[0] && r[1..] == rest;
      InsertSelect(x, q[1..], metric, v);
      assert SelectEq(r, metric, v) == g + SelectEq(rest, metric, v);
      assert SelectEq(q, metric, v) == g + SelectEq(q[1..], metric, v);
      if metric(x) == v {
        assert g == [];
      } else {
        assert h == [];
      }
    }
  }

  /** The sort is stable: rows of equal metric keep their input order. */
  lemma {:induction false} SortSelect<T>(s: seq<T>, metric: T -> real, v: real)
    ensures SelectEq(SortDesc(s, metric), metric, v) == SelectEq(s, metric, v)
  {
    if s != [] {
      SortSelect(s[1..], metric, v);
      InsertSelect(s[0], SortDesc(s[1..], metric), metric, v);
    }
  }

  /** Filtering a prefix gives a prefix of the filtered rows. */
  lemma {:induction false} SelectPrefix<T, K>(q: seq<T>, m: nat, key: T -> K, v: K)
    requires m <= |q|
    ensures SelectEq(q[..m], key, v) <= SelectEq(q, key, v)
  {
    if m > 0 {
      var h := if key(q[0]) == v then [q[0]] else [];
      assert q[..m][0] == q[0] && q[..m][1..] == q[1..][..m - 1];
      SelectPrefix(q[1..], m - 1, key, v);
      assert SelectEq(q[..m], key, v) == h + SelectEq(q[1..][..m - 1], key, v);
      assert SelectEq(q, key, v) == h + SelectEq(q[1..], key, v);
    }
  }

  /**
   * DataFrame.nlargest(n, column) with keep="first": the `n` rows with the
   * largest metric, in descending order. Every row left out has a metric no
   * larger than any row chosen, and among rows of equal metric the chosen
   * ones are the earliest in the input (keep="first").
   */
  function NLargest<T>(rows: seq<T>, n: nat, metric: T -> real): (r: seq<T>)
    ensures |r| == if n < |rows| then n else |rows|
    ensures SortedDesc(r, metric)
    ensures multiset(r) <= multiset(rows)
    ensures forall y, x :: y in multiset(rows) - multiset(r) && x in r ==> metric(y) <= metric(x)
    ensures forall v :: SelectEq(r, metric, v) <= SelectEq(rows, metric, v)
  {
    var q := SortDesc(rows, metric);
    var m := if n < |rows| then n else |rows|;
    NLargestPrefix(q, m, metric);
    forall v ensures SelectEq(q[..m], metric, v) <= SelectEq(rows, metric, v) {
      SelectPrefix(q, m, metric, v);
      SortSelect(rows, metric, v);
    }
    q[..m]
  }

  lemma NLargestPrefix<T>(q: seq<T>, m: nat, metric: T -> real)
    requires m <= |q|
    requires SortedDesc(q, metric)
    ensures multiset(q[..m]) <= multiset(q)
    ensures forall y, x :: y in multiset(q) - multiset(q[..m]) && x in q[..m] ==> metric(y) <= metric(x)
  {
    assert q == q[..m] + q[m..];
    assert multiset(q) == multiset(q[..m]) + multiset(q[m..]);
    forall y, x | y in multiset(q) - multiset(q[..m]) && x in q[..m]
      ensures metric(y) <= metric(x)
    {
      assert y in multiset(q[m..]);
      var j :| 0 <= j < |q[m..]| && q[m..][j] == y;
      var i :| 0 <= i < m && q[..m][i] == x;
      assert q[i] == x && q[m + j] == y;
    }
  }

  /** The index of the first row with the smallest metric. */
  function MinIndex<T>(rows: seq<T>, metric: T -> real): (i: nat)
    requires rows != []
    ensures i < |rows|
    ensures forall j :: 0 <= j < |rows| ==> metric(rows[i]) <= metric(rows[j])
    ensures forall j :: 0 <= j < i ==> metric(rows[j]) > metric(rows[i])
  {
    if |rows| == 1 then 0
    else
      var k := MinIndex(rows[1..], metric);
      if metric(rows[0]) <= metric(rows[k + 1]) then 0 else k + 1
  }

  /**
   * DataFrame.nsmallest(1, column) with keep="first": the earliest of the
   * rows with the smallest metric.
   */
  function NSmallestOne<T>(rows: seq<T>, metric: T -> real): (r: seq<T>)
    ensures |r| == if rows == [] then 0 else 1
    ensures forall x :: x in r ==> x in rows && forall y :: y in rows ==> metric(x) <= metric(y)
    ensures rows != [] ==>
      exists i :: 0 <= i < |rows| && r == [rows[i]] && (forall j :: 0 <= j < i ==> metric(rows[j]) > metric(rows[i]))
  {
    if rows == [] then [] else [rows[MinIndex(rows, metric)]]
  }

  // ---------------------------------------------------------------------
  // value_counts().apply(lambda x: x / count * 100)
  // ---------------------------------------------------------------------

  function CountMetric<T>(v: ValueCount<T>): real { v.count as real }

  /**
   * Series.value_counts(): the tally ordered by descending count. pandas
   * leaves the order of equal counts unspecified; this model keeps them in
   * order of first appearance.
   */
  function ValueCounts<T(==)>(s: seq<T>): seq<ValueCount<T>>
  {
    SortDesc(Tally(s), CountMetric)
  }

  lemma {:induction false} SumCountInsert<T>(x: ValueCount<T>, s: seq<ValueCount<T>>)
    ensures SumCount(InsertDesc(x, s, CountMetric)) == x.count + SumCount(s)
  {
    if s != [] && CountMetric(x) < CountMetric(s[0]) {
      SumCountInsert(x, s[1..]);
    }
  }

  lemma {:induction false} SumCountSort<T>(s: seq<ValueCount<T>>)
    ensures SumCount(SortDesc(s, CountMetric)) == SumCount(s)
  {
    if s != [] {
      SumCountSort(s[1..]);
      SumCountInsert(s[0], SortDesc(s[1..], CountMetric));
    }
  }

  function Share(count: nat, total: nat): real
    requires total > 0
  {
    count as real / total as real * 100.0
  }

  lemma ShareBounds(a: nat, b: nat, total: nat)
    requires total > 0
    ensures a > 0 ==> Share(a, total) > 0.0
    ensures a >= b ==> Share(a, total) >= Share(b, total)
    ensures Share(total, total) == 100.0
  {
    var n := total as real;
    assert Share(a, total) == (a as real / n) * 100.0;
    assert Share(b, total) == (b as real / n) * 100.0;
    if a > 0 {
      assert a as real / n > 0.0;
    }
    if a >= b {
      assert a as real / n >= b as real / n;
    }
    assert Share(total, total) == 100.0 by {
      assert n / n == 1.0;
    }
  }

  /** Each count as a percentage of `total`. */
  function Percentages<T>(vs: seq<ValueCount<T>>, total: nat): (r: seq<(T, real)>)
    requires total > 0
    ensures |r| == |vs|
    ensures forall i :: 0 <= i < |vs| ==> r[i] == (vs[i].value, Share(vs[i].count, total))
  {
    if vs == [] then [] else [(vs[0].value, Share(vs[0].count, total))] + Percentages(vs[1..], total)
  }

  function SumShares<T>(ps: seq<(T, real)>): real
  {
    if ps == [] then 0.0 else ps[0].1 + SumShares(ps[1..])
  }

  lemma {:induction false} SumPercentages<T>(vs: seq<ValueCount<T>>, total: nat)
    requires total > 0
    ensures SumShares(Percentages(vs, total)) == Share(SumCount(vs), total)
  {
    if vs != [] {
      SumPercentages(vs[1..], total);
      var a, b, n := vs[0].count as real, SumCount(vs[1..]) as real, total as real;
      assert a / n + b / n == (a + b) / n;
    }
  }

  /**
   * `col.value_counts().apply(lambda x: x / col.count() * 100)`: one entry
   * per distinct value, holding its share of the rows as a percentage, in
   * descending order; over a non-empty column the shares add up to 100.
   */
  function Shares<T(==)>(col: seq<T>): (r: seq<(T, real)>)
    ensures col == [] ==> r == []
    ensures forall i :: 0 <= i < |r| ==> |col| > 0 && r[i].1 == Share(Count(col, r[i].0), |col|) && r[i].1 > 0.0
    ensures forall i, j :: 0 <= i < j < |r| ==> r[i].0 != r[j].0 && r[i].1 >= r[j].1
    ensures forall i :: 0 <= i < |r| ==> r[i].0 in col
    ensures forall k :: 0 <= k < |col| ==> exists i :: 0 <= i < |r| && r[i].0 == col[k]
    ensures col != [] ==> SumShares(r) == 100.0
  {
    if col == [] then []
    else
      var t := Tally(col);
      var vc := ValueCounts(col);
      var r := Percentages(vc, |col|);
      SharesSound(col, t, vc, r);
      r
  }

  /** The shares computed from a non-empty column's sorted tally meet Shares' contract. */
  lemma SharesSound<T>(col: seq<T>, t: seq<ValueCount<T>>, vc: seq<ValueCount<T>>, r: seq<(T, real)>)
    requires |col| > 0 && t == Tally(col) && vc == SortDesc(t, CountMetric) && r == Percentages(vc, |col|)
    ensures forall i :: 0 <= i < |r| ==> r[i].1 == Share(Count(col, r[i].0), |col|) && r[i].1 > 0.0
    ensures forall i, j :: 0 <= i < j < |r| ==> r[i].0 != r[j].0 && r[i].1 >= r[j].1
    ensures forall i :: 0 <= i < |r| ==> r[i].0 in col
    ensures forall k :: 0 <= k < |col| ==> exists i :: 0 <= i < |r| && r[i].0 == col[k]
    ensures SumShares(r) == 100.0
  {
    TallyProperties(col);
    SharesEntries(col, t, vc, r);
    SharesOrder(col, t, vc, r);
    SharesCover(col, t, vc, r);
    SumCountSort(t);
    SumPercentages(vc, |col|);
    ShareBounds(|col|, 0, |col|);
  }

  function ValueOf<T>(v: ValueCount<T>): T { v.value }

  lemma SharesEntries<T>(col: seq<T>, t: seq<ValueCount<T>>, vc: seq<ValueCount<T>>, r: seq<(T, real)>)
    requires |col| > 0 && multiset(vc) == multiset(t) && r == Percentages(vc, |col|)
    requires forall i :: 0 <= i < |t| ==> t[i].count == Count(col, t[i].value) > 0
    requires forall i :: 0 <= i < |t| ==> t[i].value in col
    ensures forall i :: 0 <= i < |r| ==> r[i].1 == Share(Count(col, r[i].0), |col|) && r[i].1 > 0.0
    ensures forall i :: 0 <= i < |r| ==> r[i].0 in col
  {
    forall i | 0 <= i < |r|
      ensures r[i].1 == Share(Count(col, r[i].0), |col|) && r[i].1 > 0.0 && r[i].0 in col
    {
      assert vc[i] in multiset(t);
      var k :| 0 <= k < |t| && t[k] == vc[i];
      ShareBounds(vc[i].count, 0, |col|);
    }
  }

  lemma SharesOrder<T>(col: seq<T>, t: seq<ValueCount<T>>, vc: seq<ValueCount<T>>, r: seq<(T, real)>)
    requires |col| > 0 && vc == SortDesc(t, CountMetric) && r == Percentages(vc, |col|)
    requires forall i, j :: 0 <= i < j < |t| ==> t[i].value != t[j].value
    ensures forall i, j :: 0 <= i < j < |r| ==> r[i].0 != r[j].0 && r[i].1 >= r[j].1
  {
    assert forall i, j :: 0 <= i < j < |t| ==> ValueOf(t[i]) != ValueOf(t[j]);
    SortDistinct(t, CountMetric, ValueOf);
    forall i, j | 0 <= i < j < |r| ensures r[i].0 != r[j].0 && r[i].1 >= r[j].1 {
      assert ValueOf(vc[i]) != ValueOf(vc[j]);
      assert CountMetric(vc[i]) >= CountMetric(vc[j]);
      ShareBounds(vc[i].count, vc[j].count, |col|);
    }
  }

  lemma SharesCover<T>(col: seq<T>, t: seq<ValueCount<T>>, vc: seq<ValueCount<T>>, r: seq<(T, real)>)
    requires |col| > 0 && multiset(vc) == multiset(t) && r == Percentages(vc, |col|)
    requires forall k :: 0 <= k < |col| ==> exists i :: 0 <= i < |t| && t[i].value == col[k]
    ensures forall k :: 0 <= k < |col| ==> exists i :: 0 <= i < |r| && r[i].0 == col[k]
  {
    forall k | 0 <= k < |col| ensures exists i :: 0 <= i < |r| && r[i].0 == col[k] {
      var m :| 0 <= m < |t| && t[m].value == col[k];
      assert t[m] in multiset(vc);
      var i :| 0 <= i < |vc| && vc[i] == t[m];
      assert r[i].0 == col[k];
    }
  }

  // ---------------------------------------------------------------------
  // Column means and string joining
  // ---------------------------------------------------------------------

  function Sum(xs: seq<real>): real
  {
    if xs == [] then 0.0 else xs[0] + Sum(xs[1..])
  }

  /** Series.mean() of a non-empty column. */
  function Mean(xs: seq<real>): real
    requires xs != []
  {
    Sum(xs) / |xs| as real
  }

  /** Comparing a mean with a threshold is comparing the sum with `threshold * n`. */
  lemma MeanCompared(xs: seq<real>, t: real)
    requires xs != []
    ensures Mean(xs) > t <==> Sum(xs) > t * |xs| as real
    ensures Mean(xs) < t <==> Sum(xs) < t * |xs| as real
  {
    var n := |xs| as real;
    assert Sum(xs) == Mean(xs) * n;
    if Mean(xs) > t { assert Mean(xs) * n > t * n; }
    if Mean(xs) < t { assert Mean(xs) * n < t * n; }
    if Mean(xs) <= t { assert Mean(xs) * n <= t * n; }
    if Mean(xs) >= t { assert Mean(xs) * n >= t * n; }
  }

  /** `sep.join(parts)`. */
  function JoinStrings(parts: seq<string>, sep: string): (r: string)
    ensures parts == [] ==> r == ""
    ensures |parts| == 1 ==> r == parts[0]
  {
    if parts == [] then "" else if |parts| == 1 then parts[0] else parts[0] + sep + JoinStrings(parts[1..], sep)
  }

  /** `sep.join` of a longer list: the shorter join, the separator, then the new part. */
  lemma {:induction false} JoinStringsSnoc(parts: seq<string>, p: string, sep: string)
    requires parts != []
    ensures JoinStrings(parts + [p], sep) == JoinStrings(parts, sep) + sep + p
  {
    if |parts| == 1 {
      assert (parts + [p])[1..] == [p];
    } else {
      assert (parts + [p])[1..] == parts[1..] + [p];
      JoinStringsSnoc(parts[1..], p, sep);
    }
  }
}
