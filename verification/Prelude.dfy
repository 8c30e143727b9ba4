// Small vocabulary shared by every module: optional values, and sums over
// sequences together with the two facts every aggregate query relies on.
module Prelude {
  datatype Option<+T> = None | Some(value: T) {
    function GetOr(default: T): T {
      if Some? then value else default
    }
  }

  function Min(a: int, b: int): int {
    if a <= b then a else b
  }

  function Max(a: int, b: int): int {
    if a >= b then a else b
  }

  // SELECT SUM(f(x)) over a table, with the empty sum coalesced to zero.
  function SumBy<T>(xs: seq<T>, f: T -> int): int {
    if xs == [] then 0 else f(xs[0]) + SumBy(xs[1..], f)
  }

  lemma {:induction false} SumByAppend<T>(a: seq<T>, b: seq<T>, f: T -> int)
    ensures SumBy(a + b, f) == SumBy(a, f) + SumBy(b, f)
  {
    if a == [] {
      assert a + b == b;
    } else {
      assert (a + b)[0] == a[0] && (a + b)[1..] == a[1..] + b;
      SumByAppend(a[1..], b, f);
    }
  }

  lemma SumBySnoc<T>(a: seq<T>, x: T, f: T -> int)
    ensures SumBy(a + [x], f) == SumBy(a, f) + f(x)
  {
    SumByAppend(a, [x], f);
  }

  lemma SumByPrefix<T>(xs: seq<T>, i: nat, f: T -> int)
    requires i < |xs|
    ensures SumBy(xs[..i + 1], f) == SumBy(xs[..i], f) + f(xs[i])
  {
    assert xs[..i + 1] == xs[..i] + [xs[i]];
    SumBySnoc(xs[..i], xs[i], f);
  }

  lemma CountTwice<T>(xs: seq<T>, i: nat, j: nat)
    requires i < j < |xs| && xs[i] == xs[j]
    ensures multiset(xs)[xs[i]] >= 2
  {
    assert xs == xs[..j] + xs[j..];
    assert xs[i] in xs[..j] && xs[j] in xs[j..];
    assert xs[i] in multiset(xs[..j]) && xs[i] in multiset(xs[j..]);
  }

  lemma CountOnce<T>(xs: seq<T>, i: nat)
    requires i < |xs| && forall j | 0 <= j < |xs| && j != i :: xs[j] != xs[i]
    ensures multiset(xs)[xs[i]] == 1
  {
    assert xs == xs[..i] + [xs[i]] + xs[i + 1..];
    assert xs[i] !in xs[..i] && xs[i] !in xs[i + 1..];
    assert xs[i] !in multiset(xs[..i]) && xs[i] !in multiset(xs[i + 1..]);
  }

  lemma Without<T>(xs: seq<T>, i: nat)
    requires i < |xs|
    ensures multiset(xs[..i] + xs[i + 1..]) == multiset(xs) - multiset{xs[i]}
  {
    var rest := xs[..i] + xs[i + 1..];
    assert xs == xs[..i] + [xs[i]] + xs[i + 1..];
    assert multiset(xs) == multiset(xs[..i]) + multiset{xs[i]} + multiset(xs[i + 1..]);
    assert multiset(rest) == multiset(xs[..i]) + multiset(xs[i + 1..]);
  }

  lemma SumByExtract<T>(xs: seq<T>, i: nat, f: T -> int)
    requires i < |xs|
    ensures SumBy(xs, f) == f(xs[i]) + SumBy(xs[..i] + xs[i + 1..], f)
  {
    assert xs == xs[..i + 1] + xs[i + 1..];
    SumByAppend(xs[..i + 1], xs[i + 1..], f);
    SumByPrefix(xs, i, f);
    SumByAppend(xs[..i], xs[i + 1..], f);
  }

  // The order in which a query returns its rows does not matter to a sum.
  lemma {:induction false} SumByPermutation<T>(a: seq<T>, b: seq<T>, f: T -> int)
    requires multiset(a) == multiset(b)
    ensures SumBy(a, f) == SumBy(b, f)
  {
    if a == [] {
      assert |multiset(b)| == 0;
    } else {
      assert a[0] in multiset(b);
      var i :| 0 <= i < |b| && b[i] == a[0];
      SumByExtract(b, i, f);
      Without(b, i);
      assert a == [a[0]] + a[1..];
      SumByPermutation(a[1..], b[..i] + b[i + 1..], f);
    }
  }

  lemma {:induction false} SumByMonotone<T>(xs: seq<T>, f: T -> int, g: T -> int)
    requires forall x | x in xs :: f(x) <= g(x)
    ensures SumBy(xs, f) <= SumBy(xs, g)
  {
    if xs != [] {
      SumByMonotone(xs[1..], f, g);
    }
  }

  lemma {:induction false} SumByEqual<T>(xs: seq<T>, f: T -> int, g: T -> int)
    requires forall x | x in xs :: f(x) == g(x)
    ensures SumBy(xs, f) == SumBy(xs, g)
  {
    if xs != [] {
      SumByEqual(xs[1..], f, g);
    }
  }

  lemma {:induction false} SumByPlus<T>(xs: seq<T>, f: T -> int, g: T -> int, h: T -> int)
    requires forall x | x in xs :: h(x) == f(x) + g(x)
    ensures SumBy(xs, h) == SumBy(xs, f) + SumBy(xs, g)
  {
    if xs != [] {
      SumByPlus(xs[1..], f, g, h);
    }
  }

  // A sum of non-negative terms is zero exactly when every term is.
  lemma {:induction false} SumByZero<T>(xs: seq<T>, f: T -> int)
    requires forall x | x in xs :: f(x) >= 0
    ensures SumBy(xs, f) >= 0
    ensures SumBy(xs, f) == 0 <==> forall x | x in xs :: f(x) == 0
  {
    if xs != [] {
      SumByZero(xs[1..], f);
      assert forall x | x in xs :: x == xs[0] || x in xs[1..];
    }
  }

  // The rows a WHERE clause keeps, in order.
  function Filter<T>(xs: seq<T>, p: T -> bool): (kept: seq<T>)
    ensures |kept| <= |xs|
  {
    if xs == [] then []
    else if p(xs[0]) then [xs[0]] + Filter(xs[1..], p)
    else Filter(xs[1..], p)
  }

  lemma {:induction false} FilterMembers<T>(xs: seq<T>, p: T -> bool)
    ensures forall x :: x in Filter(xs, p) <==> x in xs && p(x)
  {
    if xs != [] {
      FilterMembers(xs[1..], p);
      assert forall x :: x in xs <==> x == xs[0] || x in xs[1..];
    }
  }

  lemma {:induction false} FilterAppend<T>(a: seq<T>, b: seq<T>, p: T -> bool)
    ensures Filter(a + b, p) == Filter(a, p) + Filter(b, p)
  {
    if a == [] {
      assert a + b == b;
    } else {
      assert (a + b)[1..] == a[1..] + b;
      FilterAppend(a[1..], b, p);
    }
  }

  lemma {:induction false} FilterAll<T>(xs: seq<T>, p: T -> bool)
    requires forall x | x in xs :: p(x)
    ensures Filter(xs, p) == xs
  {
    if xs != [] {
      FilterAll(xs[1..], p);
    }
  }

  lemma {:induction false} FilterNone<T>(xs: seq<T>, p: T -> bool)
    requires forall x | x in xs :: !p(x)
    ensures Filter(xs, p) == []
  {
    if xs != [] {
      FilterNone(xs[1..], p);
    }
  }

  // A narrower filter applied to a wider one's result.
  lemma {:induction false} FilterFilter<T>(xs: seq<T>, wide: T -> bool, p: T -> bool, narrow: T -> bool)
    requires forall x | x in xs :: narrow(x) == (wide(x) && p(x))
    ensures Filter(Filter(xs, wide), p) == Filter(xs, narrow)
  {
    if xs != [] {
      FilterFilter(xs[1..], wide, p, narrow);
      if wide(xs[0]) {
        assert Filter(xs, wide)[1..] == Filter(xs[1..], wide);
      }
    }
  }

  lemma {:induction false} FilterEqual<T>(xs: seq<T>, p: T -> bool, q: T -> bool)
    requires forall x | x in xs :: p(x) == q(x)
    ensures Filter(xs, p) == Filter(xs, q)
  {
    if xs != [] {
      FilterEqual(xs[1..], p, q);
    }
  }

  lemma {:induction false} SumByFilter<T>(xs: seq<T>, p: T -> bool, f: T -> int, g: T -> int)
    requires forall x | x in xs :: g(x) == if p(x) then f(x) else 0
    ensures SumBy(Filter(xs, p), f) == SumBy(xs, g)
  {
    if xs != [] {
      SumByFilter(xs[1..], p, f, g);
    }
  }

  ghost predicate Distinct<T>(xs: seq<T>) {
    forall i, j | 0 <= i < j < |xs| :: xs[i] != xs[j]
  }

  // [...new Set(xs)]: first occurrences, in order.
  function Dedup<T(==)>(xs: seq<T>): (r: seq<T>) {
    if xs == [] then [] else AddNew(Dedup(xs[..|xs| - 1]), xs[|xs| - 1])
  }

  function AddNew<T(==)>(xs: seq<T>, x: T): seq<T> {
    if x in xs then xs else xs + [x]
  }

  lemma {:induction false} DedupFacts<T>(xs: seq<T>)
    ensures Distinct(Dedup(xs))
    ensures forall x :: x in Dedup(xs) <==> x in xs
    ensures |Dedup(xs)| <= |xs|
  {
    if xs != [] {
      var init := xs[..|xs| - 1];
      DedupFacts(init);
      assert xs == init + [xs[|xs| - 1]];
    }
  }

  lemma DedupSnoc<T>(xs: seq<T>, x: T)
    ensures Dedup(xs + [x]) == AddNew(Dedup(xs), x)
  {
    assert (xs + [x])[..|xs|] == xs;
  }

  // Adding to the end only appends.
  lemma {:induction false} DedupExtends<T>(xs: seq<T>, ys: seq<T>)
    ensures Dedup(xs) <= Dedup(xs + ys)
  {
    if ys == [] {
      assert xs + ys == xs;
    } else {
      var init := ys[..|ys| - 1];
      DedupExtends(xs, init);
      assert xs + ys == xs + init + [ys[|ys| - 1]];
      DedupSnoc(xs + init, ys[|ys| - 1]);
    }
  }

  lemma {:induction false} DedupDistinct<T>(xs: seq<T>)
    requires Distinct(xs)
    ensures Dedup(xs) == xs
  {
    if xs != [] {
      var init := xs[..|xs| - 1];
      DedupDistinct(init);
      assert xs == init + [xs[|xs| - 1]];
    }
  }

  // a is b with some members left out.
  predicate Subsequence<T(==)>(a: seq<T>, b: seq<T>) {
    if a == [] then true
    else if b == [] then false
    else if a[0] == b[0] then Subsequence(a[1..], b[1..])
    else Subsequence(a, b[1..])
  }

  lemma {:induction false} FilterIsSubsequence<T(!new)>(xs: seq<T>, p: T -> bool)
    ensures Subsequence(Filter(xs, p), xs)
  {
    if xs != [] {
      FilterIsSubsequence(xs[1..], p);
      FilterMembers(xs[1..], p);
      var kept := Filter(xs[1..], p);
      assert !p(xs[0]) && kept != [] ==> kept[0] in kept && kept[0] != xs[0];
    }
  }

  // GROUP BY: one group of rows per distinct key, keys in order of appearance.
  function Groups<T>(rows: seq<T>, key: T -> nat): (groups: seq<(nat, seq<T>)>)
    decreases |rows|
  {
    if rows == [] then []
    else [(key(rows[0]), Keyed(rows, key, key(rows[0])))] + Groups(Unkeyed(rows[1..], key, key(rows[0])), key)
  }

  function Keyed<T>(rows: seq<T>, key: T -> nat, k: nat): seq<T> {
    Filter(rows, r => key(r) == k)
  }

  function Unkeyed<T>(rows: seq<T>, key: T -> nat, k: nat): (rest: seq<T>)
    ensures |rest| <= |rows|
  {
    Filter(rows, r => key(r) != k)
  }

  lemma {:induction false} KeyedOfUnkeyed<T>(rows: seq<T>, key: T -> nat, k: nat, other: nat)
    ensures Keyed(Unkeyed(rows, key, other), key, k) == if k == other then [] else Keyed(rows, key, k)
  {
    if rows != [] {
      KeyedOfUnkeyed(rows[1..], key, k, other);
      if key(rows[0]) != other {
        assert Unkeyed(rows, key, other)[1..] == Unkeyed(rows[1..], key, other);
      }
    }
  }

  lemma KeyedIsFilter<T>(rows: seq<T>, key: T -> nat, k: nat, p: T -> bool)
    requires forall x | x in rows :: (key(x) == k) == p(x)
    ensures Keyed(rows, key, k) == Filter(rows, p)
  {
    FilterEqual(rows, r => key(r) == k, p);
  }

  // The rows with one key, picked out of a filtered table.
  lemma KeyedWithin<T>(rows: seq<T>, wide: T -> bool, key: T -> nat, k: nat, p: T -> bool)
    requires forall x | x in rows :: (wide(x) && key(x) == k) == p(x)
    ensures Keyed(Filter(rows, wide), key, k) == Filter(rows, p)
  {
    FilterFilter(rows, wide, r => key(r) == k, p);
  }

  function GroupsWith<T>(groups: seq<(nat, seq<T>)>, k: nat): seq<(nat, seq<T>)> {
    Filter(groups, (g: (nat, seq<T>)) => g.0 == k)
  }

  // A key has at most one group, and it holds exactly the rows with that key.
  lemma {:induction false} GroupsAt<T>(rows: seq<T>, key: T -> nat, k: nat)
    ensures GroupsWith(Groups(rows, key), k) ==
            if Keyed(rows, key, k) == [] then [] else [(k, Keyed(rows, key, k))]
    decreases |rows|
  {
    if rows != [] {
      var first := key(rows[0]);
      var others := Unkeyed(rows[1..], key, first);
      GroupsAt(others, key, k);
      KeyedOfUnkeyed(rows[1..], key, k, first);
      assert Groups(rows, key)[1..] == Groups(others, key);
    }
  }

  // Rows sharing a key that no later row has form the first group.
  lemma GroupsSplit<T>(head: seq<T>, tail: seq<T>, key: T -> nat, k: nat)
    requires head != [] && forall r | r in head :: key(r) == k
    requires forall r | r in tail :: key(r) != k
    ensures Groups(head + tail, key) == [(k, head)] + Groups(tail, key)
  {
    var rows := head + tail;
    assert key(head[0]) == k by { assert head[0] in head; }
    assert rows[0] == head[0] && rows[1..] == head[1..] + tail;
    FilterAppend(head, tail, r => key(r) == k);
    FilterAll(head, r => key(r) == k);
    FilterNone(tail, r => key(r) == k);
    assert forall r | r in head[1..] :: r in head;
    FilterAppend(head[1..], tail, r => key(r) != k);
    FilterNone(head[1..], r => key(r) != k);
    FilterAll(tail, r => key(r) != k);
    assert Keyed(rows, key, k) == head;
    assert Unkeyed(rows[1..], key, k) == tail;
  }
}
