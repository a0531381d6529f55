/** Relational operations on tables held as sequences of records.

    Each function is the observable effect of one DataFrame operation the
    loader uses: boolean-mask selection, column projection,
    `drop_duplicates`, a left `merge`, a merge on a constant column (a cross
    join) and `groupby(...).aggregate(...)`.  Row order is kept as pandas
    keeps it for these calls, with one exception: `GroupBy` lists its groups
    in order of first appearance, where `groupby` sorts its keys. */
module Tables {

  datatype Option<+T> = None | Some(value: T)

  /** No element occurs twice. */
  predicate NoDup<T(==)>(s: seq<T>) {
    forall i, j :: 0 <= i < j < |s| ==> s[i] != s[j]
  }

  /** No two rows share a key: the right-hand table of a join that cannot multiply rows. */
  predicate KeysUnique<R, K(==)>(s: seq<R>, key: R -> K) {
    forall i, j :: 0 <= i < j < |s| ==> key(s[i]) != key(s[j])
  }

  /** Column projection / row-wise `apply`: one output row per input row. */
  function Project<A, B>(s: seq<A>, f: A -> B): (r: seq<B>)
    ensures |r| == |s| && forall i :: 0 <= i < |s| ==> r[i] == f(s[i])
  {
    seq(|s|, i requires 0 <= i < |s| => f(s[i]))
  }

  /** Projecting a concatenation projects each part. */
  lemma ProjectConcat<A, B>(a: seq<A>, b: seq<A>, f: A -> B)
    ensures Project(a + b, f) == Project(a, f) + Project(b, f)
  {
  }

  /** Two projections in a row are one projection by the composed function. */
  lemma ProjectCompose<A, B, C>(s: seq<A>, f: A -> B, g: B -> C)
    ensures Project(Project(s, f), g) == Project(s, (x: A) => g(f(x)))
  {
  }

  /** `df[mask]`: the rows satisfying `p`, in their original order. */
  function Select<T(!new)>(s: seq<T>, p: T -> bool): (r: seq<T>)
    ensures |r| <= |s|
    ensures forall x :: x in r <==> x in s && p(x)
  {
    if s == [] then []
    else
      assert s == [s[0]] + s[1..];
      if p(s[0]) then [s[0]] + Select(s[1..], p) else Select(s[1..], p)
  }

  /** Selecting from a table whose first `k` rows fail the mask and whose
      remaining rows pass it yields exactly the remaining rows. */
  lemma {:induction false} SelectSuffix<T(!new)>(s: seq<T>, p: T -> bool, k: nat)
    requires k <= |s|
    requires forall i :: 0 <= i < k ==> !p(s[i])
    requires forall i :: k <= i < |s| ==> p(s[i])
    ensures Select(s, p) == s[k..]
  {
    if s != [] {
      if k == 0 {
        SelectSuffix(s[1..], p, 0);
        assert s == [s[0]] + s[1..];
      } else {
        SelectSuffix(s[1..], p, k - 1);
        assert s[1..][k - 1..] == s[k..];
      }
    }
  }

  /** `drop_duplicates()`: one copy of every distinct row. */
  function Distinct<T(==,!new)>(s: seq<T>): (r: seq<T>)
    ensures NoDup(r)
    ensures forall x :: x in r <==> x in s
    ensures |r| <= |s|
    decreases |s|
  {
    if s == [] then []
    else
      var init := s[..|s| - 1];
      assert s == init + [s[|s| - 1]];
      var r := Distinct(init);
      if s[|s| - 1] in r then r else r + [s[|s| - 1]]
  }

  /** De-duplicating a table that has no duplicate rows changes nothing. */
  lemma {:induction false} DistinctOfNoDup<T(!new)>(s: seq<T>)
    requires NoDup(s)
    ensures Distinct(s) == s
  {
    if s != [] {
      var init := s[..|s| - 1];
      assert NoDup(init) by {
        forall i, j | 0 <= i < j < |init| ensures init[i] != init[j] {
          assert init[i] == s[i] && init[j] == s[j];
        }
      }
      DistinctOfNoDup(init);
      assert s[|s| - 1] !in init by {
        forall i | 0 <= i < |init| ensures init[i] != s[|s| - 1] {
          assert init[i] == s[i];
        }
      }
      assert s == init + [s[|s| - 1]];
    }
  }

  /** Position of the first occurrence of `x`. */
  function IndexOf<T(==)>(s: seq<T>, x: T): (i: nat)
    requires x in s
    ensures i < |s| && s[i] == x
    ensures forall j :: 0 <= j < i ==> s[j] != x
  {
    if s[0] == x then 0 else 1 + IndexOf(s[1..], x)
  }

  /** The first row whose key is `k`, or None when no row has that key. */
  function Lookup<R, K(==)>(s: seq<R>, key: R -> K, k: K): (r: Option<R>)
    ensures r.Some? <==> exists i :: 0 <= i < |s| && key(s[i]) == k
    ensures r.Some? ==> r.value in s && key(r.value) == k
  {
    if s == [] then None
    else if key(s[0]) == k then Some(s[0])
    else
      assert forall i :: 1 <= i < |s| ==> s[i] == s[1..][i - 1];
      Lookup(s[1..], key, k)
  }

  lemma KeysUniqueTail<R, K>(s: seq<R>, key: R -> K)
    requires s != [] && KeysUnique(s, key)
    ensures KeysUnique(s[1..], key)
  {
    forall i, j | 0 <= i < j < |s| - 1 ensures key(s[1..][i]) != key(s[1..][j]) {
      assert s[1..][i] == s[i + 1] && s[1..][j] == s[j + 1];
    }
  }

  /** In a table with unique keys, looking up a row's key finds that row. */
  lemma {:induction false} LookupAt<R, K>(s: seq<R>, key: R -> K, i: nat)
    requires KeysUnique(s, key) && i < |s|
    ensures Lookup(s, key, key(s[i])) == Some(s[i])
  {
    if i > 0 {
      KeysUniqueTail(s, key);
      LookupAt(s[1..], key, i - 1);
    }
  }

  /** Every row with key `k`, in table order. */
  function Matches<R, K(==)>(s: seq<R>, key: R -> K, k: K): (r: seq<R>)
    ensures |r| <= |s|
    ensures forall i :: 0 <= i < |r| ==> r[i] in s && key(r[i]) == k
    ensures forall i :: 0 <= i < |s| && key(s[i]) == k ==> s[i] in r
  {
    if s == [] then []
    else
      assert s == [s[0]] + s[1..];
      (if key(s[0]) == k then [s[0]] else []) + Matches(s[1..], key, k)
  }

  /** Each row with key `k` occurs among the matches exactly as often as in
      the table, and no other row occurs. */
  lemma {:induction false} MatchesCount<R, K>(s: seq<R>, key: R -> K, k: K, x: R)
    ensures multiset(Matches(s, key, k))[x] == if key(x) == k then multiset(s)[x] else 0
  {
    if s != [] {
      assert s == [s[0]] + s[1..];
      MatchesCount(s[1..], key, k, x);
      assert multiset(s) == multiset([s[0]]) + multiset(s[1..]);
    }
  }

  /** Matching a concatenation concatenates the matches: table order is kept. */
  lemma {:induction false} MatchesConcat<R, K>(a: seq<R>, b: seq<R>, key: R -> K, k: K)
    ensures Matches(a + b, key, k) == Matches(a, key, k) + Matches(b, key, k)
  {
    if a == [] {
      assert a + b == b;
    } else {
      assert (a + b)[0] == a[0] && (a + b)[1..] == a[1..] + b;
      MatchesConcat(a[1..], b, key, k);
    }
  }

  /** No row has key `k`: nothing matches. */
  lemma {:induction false} MatchesNone<R, K>(s: seq<R>, key: R -> K, k: K)
    requires forall i :: 0 <= i < |s| ==> key(s[i]) != k
    ensures Matches(s, key, k) == []
  {
    if s != [] {
      MatchesNone(s[1..], key, k);
    }
  }

  /** Matching against a table with unique keys finds at most the looked-up row. */
  lemma {:induction false} MatchesUnique<R, K>(s: seq<R>, key: R -> K, k: K)
    requires KeysUnique(s, key)
    ensures Matches(s, key, k) == match Lookup(s, key, k) case None => [] case Some(r) => [r]
  {
    if s != [] {
      KeysUniqueTail(s, key);
      if key(s[0]) == k {
        forall i | 0 <= i < |s[1..]| ensures key(s[1..][i]) != k {
          assert s[1..][i] == s[i + 1];
        }
        MatchesNone(s[1..], key, k);
      } else {
        MatchesUnique(s[1..], key, k);
      }
    }
  }

  /** Matching keeps distinctness: a table without duplicate rows has groups without duplicates. */
  lemma {:induction false} MatchesNoDup<R, K>(s: seq<R>, key: R -> K, k: K)
    requires NoDup(s)
    ensures NoDup(Matches(s, key, k))
  {
    if s != [] {
      var tail := s[1..];
      assert NoDup(tail) by {
        forall i, j | 0 <= i < j < |tail| ensures tail[i] != tail[j] {
          assert tail[i] == s[i + 1] && tail[j] == s[j + 1];
        }
      }
      MatchesNoDup(tail, key, k);
      if key(s[0]) == k {
        var rest := Matches(tail, key, k);
        assert s[0] !in tail by {
          forall j | 0 <= j < |tail| ensures tail[j] != s[0] {
            assert tail[j] == s[j + 1];
          }
        }
        assert s[0] !in rest;
        var m := [s[0]] + rest;
        forall i, j | 0 <= i < j < |m| ensures m[i] != m[j] {
          if i == 0 {
            assert m[j] == rest[j - 1];
          } else {
            assert m[i] == rest[i - 1] && m[j] == rest[j - 1];
          }
        }
      }
    }
  }

  /** Matching a table that is the row-wise image `t[i] == f(s[i])` of another
      table, with keys carried over, gives the image of the matching rows. */
  lemma {:induction false} MatchesPointwise<A, B, K>(s: seq<A>, t: seq<B>, ka: A -> K, kb: B -> K, f: A -> B, k: K)
    requires |s| == |t|
    requires forall i :: 0 <= i < |s| ==> t[i] == f(s[i]) && kb(t[i]) == ka(s[i])
    ensures |Matches(t, kb, k)| == |Matches(s, ka, k)|
    ensures forall j :: 0 <= j < |Matches(s, ka, k)| ==> Matches(t, kb, k)[j] == f(Matches(s, ka, k)[j])
  {
    if s != [] {
      MatchesPointwise(s[1..], t[1..], ka, kb, f, k);
    }
  }

  /** A left `merge`: every left row is paired with each right row of the
      same key, in right-table order, or once with None when there is none.
      Rows are multiplied when the right table repeats a key. */
  function LeftJoin<L, R, K(==), O>(left: seq<L>, right: seq<R>, lkey: L -> K, rkey: R -> K,
                                     combine: (L, Option<R>) -> O): seq<O>
  {
    if left == [] then []
    else
      var ms := Matches(right, rkey, lkey(left[0]));
      (if ms == [] then [combine(left[0], None)]
       else seq(|ms|, j requires 0 <= j < |ms| => combine(left[0], Some(ms[j]))))
      + LeftJoin(left[1..], right, lkey, rkey, combine)
  }

  /** What a left merge may attach to a left row: a right row with the same
      key, or nothing when the right table has no such row. */
  ghost predicate Attached<L, R, K>(l: L, m: Option<R>, right: seq<R>, lkey: L -> K, rkey: R -> K) {
    match m
    case None => forall j :: 0 <= j < |right| ==> rkey(right[j]) != lkey(l)
    case Some(x) => x in right && rkey(x) == lkey(l)
  }

  /** Left row `l` appears in `joined`, with a matching right row or with nothing. */
  ghost predicate Kept<L, R(!new), K, O>(l: L, joined: seq<O>, right: seq<R>, lkey: L -> K, rkey: R -> K,
                                   combine: (L, Option<R>) -> O) {
    exists m :: Attached(l, m, right, lkey, rkey) && combine(l, m) in joined
  }

  /** A left join never drops a row of its left table: every left row
      appears in the result, with a matching right row or with nothing. */
  lemma {:induction false} LeftJoinKeepsRows<L, R(!new), K, O>(left: seq<L>, right: seq<R>, lkey: L -> K, rkey: R -> K,
                                                         combine: (L, Option<R>) -> O)
    ensures |LeftJoin(left, right, lkey, rkey, combine)| >= |left|
    ensures forall i :: 0 <= i < |left| ==>
      Kept(left[i], LeftJoin(left, right, lkey, rkey, combine), right, lkey, rkey, combine)
  {
    if left != [] {
      var ms := Matches(right, rkey, lkey(left[0]));
      var head := if ms == [] then [combine(left[0], None)]
                  else seq(|ms|, j requires 0 <= j < |ms| => combine(left[0], Some(ms[j])));
      var rest := LeftJoin(left[1..], right, lkey, rkey, combine);
      var joined := LeftJoin(left, right, lkey, rkey, combine);
      assert joined == head + rest;
      LeftJoinKeepsRows(left[1..], right, lkey, rkey, combine);
      forall i | 0 <= i < |left| ensures Kept(left[i], joined, right, lkey, rkey, combine) {
        if i == 0 {
          var m: Option<R> := if ms == [] then None else Some(ms[0]);
          assert head[0] == combine(left[0], m) && head[0] in joined;
          assert Attached(left[0], m, right, lkey, rkey);
        } else {
          assert left[1..][i - 1] == left[i];
          assert Kept(left[i], rest, right, lkey, rkey, combine);
          var m :| Attached(left[i], m, right, lkey, rkey) && combine(left[i], m) in rest;
          assert combine(left[i], m) in joined;
        }
      }
    }
  }

  /** With unique right keys a left join is a row-wise lookup: exactly one
      output row per left row, in order. */
  lemma {:induction false} LeftJoinUnique<L, R, K, O>(left: seq<L>, right: seq<R>, lkey: L -> K, rkey: R -> K,
                                                      combine: (L, Option<R>) -> O)
    requires KeysUnique(right, rkey)
    ensures |LeftJoin(left, right, lkey, rkey, combine)| == |left|
    ensures forall i :: 0 <= i < |left| ==>
      LeftJoin(left, right, lkey, rkey, combine)[i] == combine(left[i], Lookup(right, rkey, lkey(left[i])))
  {
    if left != [] {
      var ms := Matches(right, rkey, lkey(left[0]));
      MatchesUnique(right, rkey, lkey(left[0]));
      var head := if ms == [] then [combine(left[0], None)]
                  else seq(|ms|, j requires 0 <= j < |ms| => combine(left[0], Some(ms[j])));
      assert head == [combine(left[0], Lookup(right, rkey, lkey(left[0])))];
      LeftJoinUnique(left[1..], right, lkey, rkey, combine);
      var rest := LeftJoin(left[1..], right, lkey, rkey, combine);
      assert LeftJoin(left, right, lkey, rkey, combine) == head + rest;
      forall i | 0 <= i < |left|
        ensures (head + rest)[i] == combine(left[i], Lookup(right, rkey, lkey(left[i])))
      {
        if i > 0 {
          assert (head + rest)[i] == rest[i - 1];
          assert left[1..][i - 1] == left[i];
        }
      }
    }
  }

  /** A merge on a column that is constant on both sides: every left row
      with every right row, left-major. */
  function CrossJoin<A, B, O>(left: seq<A>, right: seq<B>, combine: (A, B) -> O): (r: seq<O>)
    ensures |r| == |left| * |right|
  {
    if left == [] then []
    else
      var rest := CrossJoin(left[1..], right, combine);
      assert |rest| == (|left| - 1) * |right|;
      assert |right| + (|left| - 1) * |right| == |left| * |right|;
      seq(|right|, j requires 0 <= j < |right| => combine(left[0], right[j])) + rest
  }

  /** Row `i * |right| + j` of the cross join pairs left row `i` with right row `j`. */
  lemma {:induction false} CrossJoinAt<A, B, O>(left: seq<A>, right: seq<B>, combine: (A, B) -> O, i: nat, j: nat)
    requires i < |left| && j < |right|
    ensures 0 <= i * |right| + j < |left| * |right|
    ensures CrossJoin(left, right, combine)[i * |right| + j] == combine(left[i], right[j])
  {
    var m := |right|;
    var rest := CrossJoin(left[1..], right, combine);
    var head := seq(m, k requires 0 <= k < m => combine(left[0], right[k]));
    assert CrossJoin(left, right, combine) == head + rest;
    if i > 0 {
      CrossJoinAt(left[1..], right, combine, i - 1, j);
      assert (i - 1) * m + j + m == i * m + j;
      assert left[1..][i - 1] == left[i];
    }
  }

  /** With unique right keys a left join is a row-wise lookup. */
  lemma LeftJoinUniqueProject<L, R, K, O>(left: seq<L>, right: seq<R>, lkey: L -> K, rkey: R -> K,
                                          combine: (L, Option<R>) -> O)
    requires KeysUnique(right, rkey)
    ensures LeftJoin(left, right, lkey, rkey, combine) == Project(left, (x: L) => combine(x, Lookup(right, rkey, lkey(x))))
  {
    LeftJoinUnique(left, right, lkey, rkey, combine);
  }

  /** Mapping every row of a cross join is the cross join of the mapped cell function. */
  lemma {:induction false} CrossJoinProject<A, B, O, P>(left: seq<A>, right: seq<B>, cell: (A, B) -> O,
                                                       f: O -> P, g: (A, B) -> P)
    requires forall i, j :: 0 <= i < |left| && 0 <= j < |right| ==> f(cell(left[i], right[j])) == g(left[i], right[j])
    ensures Project(CrossJoin(left, right, cell), f) == CrossJoin(left, right, g)
  {
    if left != [] {
      var head := seq(|right|, j requires 0 <= j < |right| => cell(left[0], right[j]));
      var rest := CrossJoin(left[1..], right, cell);
      assert CrossJoin(left, right, cell) == head + rest;
      forall i, j | 0 <= i < |left[1..]| && 0 <= j < |right|
        ensures f(cell(left[1..][i], right[j])) == g(left[1..][i], right[j])
      {
        assert left[1..][i] == left[i + 1];
      }
      CrossJoinProject(left[1..], right, cell, f, g);
      ProjectConcat(head, rest, f);
    }
  }

  /** A cross join completed by a left join on unique keys and then mapped
      row-wise is again a cross join, of the composed cell function. */
  lemma CrossJoinLookup<A, B, R, K, O, P, Q>(left: seq<A>, right: seq<B>, cell: (A, B) -> O,
                                             table: seq<R>, lkey: O -> K, rkey: R -> K,
                                             combine: (O, Option<R>) -> P, f: P -> Q, g: (A, B) -> Q)
    requires KeysUnique(table, rkey)
    requires forall i, j :: 0 <= i < |left| && 0 <= j < |right| ==>
      var o := cell(left[i], right[j]); f(combine(o, Lookup(table, rkey, lkey(o)))) == g(left[i], right[j])
    ensures Project(LeftJoin(CrossJoin(left, right, cell), table, lkey, rkey, combine), f) == CrossJoin(left, right, g)
  {
    var cj := CrossJoin(left, right, cell);
    var look := (x: O) => combine(x, Lookup(table, rkey, lkey(x)));
    LeftJoinUniqueProject(cj, table, lkey, rkey, combine);
    var both := (x: O) => f(look(x));
    ProjectCompose(cj, look, f);
    assert Project(Project(cj, look), f) == Project(cj, both);
    CrossJoinProject(left, right, cell, both, g);
  }

  /** `groupby(key).aggregate(agg)`: one output row per distinct key, made
      by `agg` from the key and its rows in table order. */
  function GroupBy<T, K(==,!new), O>(rows: seq<T>, key: T -> K, agg: (K, seq<T>) -> O): seq<O>
  {
    var keys := Distinct(Project(rows, key));
    seq(|keys|, i requires 0 <= i < |keys| => agg(keys[i], Matches(rows, key, keys[i])))
  }

  /** Looking a key up in a group-by whose aggregate keeps its key finds an
      entry iff some row has that key, and the entry aggregates that key's rows. */
  lemma GroupByLookup<T, K(!new), O>(rows: seq<T>, key: T -> K, agg: (K, seq<T>) -> O, okey: O -> K, k: K)
    requires forall x, g :: okey(agg(x, g)) == x
    ensures Lookup(GroupBy(rows, key, agg), okey, k).Some? <==> exists i :: 0 <= i < |rows| && key(rows[i]) == k
    ensures Lookup(GroupBy(rows, key, agg), okey, k).Some? ==>
      Lookup(GroupBy(rows, key, agg), okey, k).value == agg(k, Matches(rows, key, k))
  {
    var keys := Distinct(Project(rows, key));
    var groups := GroupBy(rows, key, agg);
    var projected := Project(rows, key);
    GroupByAt(rows, key, agg);
    GroupByKeysUnique(rows, key, agg, okey);
    if k in keys {
      var n := IndexOf(keys, k);
      assert okey(groups[n]) == k;
      LookupAt(groups, okey, n);
      assert k in projected;
      var i :| 0 <= i < |projected| && projected[i] == k;
      assert key(rows[i]) == k;
    } else {
      forall n | 0 <= n < |groups| ensures okey(groups[n]) != k {
        assert okey(groups[n]) == keys[n] && keys[n] in keys;
      }
      forall i | 0 <= i < |rows| ensures key(rows[i]) != k {
        assert projected[i] == key(rows[i]) && projected[i] in projected;
      }
    }
  }

  /** The group-by's entry `i` aggregates the `i`-th distinct key and its rows. */
  lemma GroupByAt<T, K(!new), O>(rows: seq<T>, key: T -> K, agg: (K, seq<T>) -> O)
    ensures var keys := Distinct(Project(rows, key));
      |GroupBy(rows, key, agg)| == |keys|
      && forall i :: 0 <= i < |keys| ==> GroupBy(rows, key, agg)[i] == agg(keys[i], Matches(rows, key, keys[i]))
  {
  }

  /** When the aggregate keeps its key, a group-by has one entry per key. */
  lemma GroupByKeysUnique<T, K(!new), O>(rows: seq<T>, key: T -> K, agg: (K, seq<T>) -> O, okey: O -> K)
    requires forall x, g :: okey(agg(x, g)) == x
    ensures KeysUnique(GroupBy(rows, key, agg), okey)
  {
    var keys := Distinct(Project(rows, key));
    var groups := GroupBy(rows, key, agg);
    GroupByAt(rows, key, agg);
    forall i, j | 0 <= i < j < |groups| ensures okey(groups[i]) != okey(groups[j]) {
      assert okey(groups[i]) == keys[i] && okey(groups[j]) == keys[j];
    }
  }
}
