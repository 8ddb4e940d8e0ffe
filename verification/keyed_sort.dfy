// Stable sorting by a list of numbers, compared from left to right.
module KeyedSort {
  datatype Keyed<T> = Keyed(key: seq<real>, item: T)

  predicate Le(a: seq<real>, b: seq<real>) {
    if |a| == 0 then true
    else if |b| == 0 then false
    else if a[0] != b[0] then a[0] < b[0]
    else Le(a[1..], b[1..])
  }

  lemma {:induction false} LeTotal(a: seq<real>, b: seq<real>)
    ensures Le(a, b) || Le(b, a)
    ensures Le(a, b) && Le(b, a) ==> a == b
  {
    if |a| > 0 && |b| > 0 && a[0] == b[0] {
      LeTotal(a[1..], b[1..]);
      assert a == [a[0]] + a[1..] && b == [b[0]] + b[1..];
    }
  }

  lemma {:induction false} LeTransitive(a: seq<real>, b: seq<real>, c: seq<real>)
    requires Le(a, b) && Le(b, c)
    ensures Le(a, c)
  {
    if |a| > 0 && a[0] == b[0] == c[0] { LeTransitive(a[1..], b[1..], c[1..]); }
  }

  function Insert<T>(x: Keyed<T>, sorted: seq<Keyed<T>>): seq<Keyed<T>> {
    if |sorted| == 0 || Le(x.key, sorted[0].key) then [x] + sorted else [sorted[0]] + Insert(x, sorted[1..])
  }

  function Sort<T>(xs: seq<Keyed<T>>): seq<Keyed<T>> {
    if |xs| == 0 then [] else Insert(xs[0], Sort(xs[1..]))
  }

  predicate Sorted<T>(xs: seq<Keyed<T>>) { forall i, j :: 0 <= i < j < |xs| ==> Le(xs[i].key, xs[j].key) }

  // No two entries have one key.
  predicate DistinctKeys<T>(xs: seq<Keyed<T>>) { forall i, j :: 0 <= i < j < |xs| ==> xs[i].key != xs[j].key }

  lemma {:induction false} InsertMembers<T>(x: Keyed<T>, sorted: seq<Keyed<T>>)
    ensures multiset(Insert(x, sorted)) == multiset(sorted) + multiset{x}
    ensures forall y :: y in Insert(x, sorted) <==> y == x || y in sorted
  {
    if |sorted| > 0 {
      assert sorted == [sorted[0]] + sorted[1..];
      if !Le(x.key, sorted[0].key) { InsertMembers(x, sorted[1..]); }
    }
  }

  lemma {:induction false} InsertSorts<T>(x: Keyed<T>, sorted: seq<Keyed<T>>)
    requires Sorted(sorted)
    ensures Sorted(Insert(x, sorted))
  {
    if |sorted| > 0 {
      var first, rest := sorted[0], sorted[1..];
      LeTotal(x.key, first.key);
      if Le(x.key, first.key) {
        forall j | 0 <= j < |sorted| ensures Le(x.key, sorted[j].key) {
          if j > 0 { LeTransitive(x.key, first.key, sorted[j].key); }
        }
      } else {
        InsertSorts(x, rest);
        assert forall i :: 0 <= i < |rest| ==> rest[i] == sorted[i + 1];
        InsertAbove(first.key, x, rest);
      }
    }
  }

  lemma {:induction false} InsertAbove<T>(low: seq<real>, x: Keyed<T>, rest: seq<Keyed<T>>)
    requires Le(low, x.key) && forall i :: 0 <= i < |rest| ==> Le(low, rest[i].key)
    ensures forall i :: 0 <= i < |Insert(x, rest)| ==> Le(low, Insert(x, rest)[i].key)
  {
    hide Le;
    if |rest| > 0 && !Le(x.key, rest[0].key) { InsertAbove(low, x, rest[1..]); }
  }

  lemma {:induction false} SortSorts<T>(xs: seq<Keyed<T>>)
    ensures Sorted(Sort(xs)) && multiset(Sort(xs)) == multiset(xs)
  {
    if |xs| > 0 {
      SortSorts(xs[1..]);
      InsertSorts(xs[0], Sort(xs[1..]));
      InsertMembers(xs[0], Sort(xs[1..]));
      assert xs == [xs[0]] + xs[1..];
    }
  }

  // Sorted lists of the same entries, no two with one key, are one list.
  lemma {:induction false} SortedUnique<T>(a: seq<Keyed<T>>, b: seq<Keyed<T>>)
    requires Sorted(a) && Sorted(b) && DistinctKeys(a) && DistinctKeys(b) && forall x :: x in a <==> x in b
    ensures a == b
  {
    assert |a| > 0 ==> a[0] in a;
    assert |b| > 0 ==> b[0] in b;
    if |a| > 0 {
      assert a[0] in b && b[0] in a;
      LeTotal(a[0].key, b[0].key);
      FirstIsLeast(a, b[0]);
      FirstIsLeast(b, a[0]);
      assert a[0].key == b[0].key;
      var i :| 0 <= i < |a| && a[i] == b[0];
      assert a[0] == b[0];
      SameRest(a, b);
      SortedUnique(a[1..], b[1..]);
      assert a == [a[0]] + a[1..] && b == [b[0]] + b[1..];
    }
  }

  lemma FirstIsLeast<T>(a: seq<Keyed<T>>, x: Keyed<T>)
    requires Sorted(a) && x in a
    ensures Le(a[0].key, x.key)
  {
    LeTotal(a[0].key, a[0].key);
  }

  lemma SameRest<T>(a: seq<Keyed<T>>, b: seq<Keyed<T>>)
    requires |a| > 0 && |b| > 0 && a[0] == b[0] && DistinctKeys(a) && DistinctKeys(b) && forall x :: x in a <==> x in b
    ensures forall x :: x in a[1..] <==> x in b[1..]
    ensures DistinctKeys(a[1..]) && DistinctKeys(b[1..])
  {
    forall x | x in a[1..] ensures x in b[1..] {
      assert x in b && x != a[0];
      var i :| 0 <= i < |b| && b[i] == x;
      assert b[1..][i - 1] == x;
    }
    forall x | x in b[1..] ensures x in a[1..] {
      assert x in a && x != b[0];
      var i :| 0 <= i < |a| && a[i] == x;
      assert a[1..][i - 1] == x;
    }
  }

  // Whatever order distinct entries come in, they are sorted to one list.
  lemma SortIgnoresOrder<T>(xs: seq<Keyed<T>>, ys: seq<Keyed<T>>)
    requires DistinctKeys(xs) && DistinctKeys(ys) && forall x :: x in xs <==> x in ys
    ensures Sort(xs) == Sort(ys)
  {
    SortSorts(xs);
    SortSorts(ys);
    SortKeepsKeys(xs);
    SortKeepsKeys(ys);
    SortMembers(xs);
    SortMembers(ys);
    SortedUnique(Sort(xs), Sort(ys));
  }

  lemma {:induction false} SortMembers<T>(xs: seq<Keyed<T>>)
    ensures forall x :: x in Sort(xs) <==> x in xs
  {
    if |xs| > 0 {
      SortMembers(xs[1..]);
      InsertMembers(xs[0], Sort(xs[1..]));
      assert xs == [xs[0]] + xs[1..];
    }
  }

  lemma InRest<T>(xs: seq<Keyed<T>>, x: Keyed<T>)
    requires |xs| > 0 && DistinctKeys(xs) && x in Sort(xs[1..])
    ensures x.key != xs[0].key
  {
    SortMembers(xs[1..]);
    assert x in xs[1..];
    var j :| 0 <= j < |xs[1..]| && xs[1..][j] == x;
    assert xs[j + 1] == x;
  }

  lemma {:induction false} SortKeepsKeys<T>(xs: seq<Keyed<T>>)
    requires DistinctKeys(xs)
    ensures DistinctKeys(Sort(xs))
  {
    if |xs| > 0 {
      var rest := Sort(xs[1..]);
      SortKeepsKeys(xs[1..]);
      forall i | 0 <= i < |rest| ensures rest[i].key != xs[0].key {
        InRest(xs, rest[i]);
      }
      InsertKeepsKeys(xs[0], rest);
    }
  }

  lemma {:induction false} InsertKeepsKeys<T>(x: Keyed<T>, sorted: seq<Keyed<T>>)
    requires DistinctKeys(sorted) && forall i :: 0 <= i < |sorted| ==> sorted[i].key != x.key
    ensures DistinctKeys(Insert(x, sorted)) && forall y :: y in Insert(x, sorted) ==> y == x || y in sorted
  {
    if |sorted| > 0 && !Le(x.key, sorted[0].key) {
      InsertKeepsKeys(x, sorted[1..]);
      var next := Insert(x, sorted[1..]);
      forall j | 0 <= j < |next| ensures next[j].key != sorted[0].key {
        assert next[j] in next;
      }
    }
  }
}
