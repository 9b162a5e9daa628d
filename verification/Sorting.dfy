/** Stable sorting by a string key, and when it is determined by the keys alone. */
module Sorting {
  import opened Strings

  function InsertBy<T>(x: T, xs: seq<T>, key: T -> string): (ys: seq<T>)
    ensures |ys| == |xs| + 1
    decreases |xs|
  {
    if xs == [] then [x]
    else if Lt(key(xs[0]), key(x)) then [xs[0]] + InsertBy(x, xs[1..], key)
    else [x] + xs
  }

  /** `slice::sort_by` on the key. */
  function SortBy<T>(xs: seq<T>, key: T -> string): (ys: seq<T>)
    ensures |ys| == |xs|
    decreases |xs|
  {
    if xs == [] then [] else InsertBy(xs[0], SortBy(xs[1..], key), key)
  }

  ghost predicate KeysAscend<T>(xs: seq<T>, key: T -> string) {
    forall i, j :: 0 <= i < j < |xs| ==> Lt(key(xs[i]), key(xs[j]))
  }

  lemma {:induction false} InsertAdds<T>(x: T, xs: seq<T>, key: T -> string)
    ensures multiset(InsertBy(x, xs, key)) == multiset(xs) + multiset{x}
    decreases |xs|
  {
    if xs != [] {
      assert xs == [xs[0]] + xs[1..];
      InsertAdds(x, xs[1..], key);
    }
  }

  lemma {:induction false} InsertKeepsOrder<T>(x: T, xs: seq<T>, key: T -> string)
    requires KeysAscend(xs, key)
    requires forall i :: 0 <= i < |xs| ==> key(xs[i]) != key(x)
    ensures KeysAscend(InsertBy(x, xs, key), key)
    decreases |xs|
  {
    if xs != [] {
      var rest := xs[1..];
      if Lt(key(xs[0]), key(x)) {
        var inserted := InsertBy(x, rest, key);
        assert KeysAscend(rest, key);
        InsertKeepsOrder(x, rest, key);
        forall j | 0 <= j < |inserted| ensures Lt(key(xs[0]), key(inserted[j])) {
          InsertAdds(x, rest, key);
          assert inserted[j] in multiset(inserted);
          assert inserted[j] == x || inserted[j] in rest;
        }
        PrependKeepsOrder(xs[0], inserted, key);
      } else {
        LtTotal(key(xs[0]), key(x));
        forall j | 0 <= j < |xs| ensures Lt(key(x), key(xs[j])) {
          if j > 0 {
            LtTransitive(key(x), key(xs[0]), key(xs[j]));
          }
        }
        PrependKeepsOrder(x, xs, key);
      }
    }
  }

  lemma PrependKeepsOrder<T>(x: T, xs: seq<T>, key: T -> string)
    requires KeysAscend(xs, key)
    requires forall j :: 0 <= j < |xs| ==> Lt(key(x), key(xs[j]))
    ensures KeysAscend([x] + xs, key)
  {
  }

  lemma {:induction false} SortPermutes<T>(xs: seq<T>, key: T -> string)
    ensures multiset(SortBy(xs, key)) == multiset(xs)
    decreases |xs|
  {
    if xs != [] {
      SortPermutes(xs[1..], key);
      InsertAdds(xs[0], SortBy(xs[1..], key), key);
      assert xs == [xs[0]] + xs[1..];
    }
  }

  ghost predicate KeysDiffer<T>(xs: seq<T>, key: T -> string) {
    forall i, j :: 0 <= i < j < |xs| ==> key(xs[i]) != key(xs[j])
  }

  lemma {:induction false} SortAscends<T>(xs: seq<T>, key: T -> string)
    requires KeysDiffer(xs, key)
    ensures KeysAscend(SortBy(xs, key), key)
    decreases |xs|
  {
    if xs != [] {
      var rest := SortBy(xs[1..], key);
      SortAscends(xs[1..], key);
      forall i | 0 <= i < |rest| ensures key(rest[i]) != key(xs[0]) {
        SortPermutes(xs[1..], key);
        assert rest[i] in multiset(rest);
        assert rest[i] in xs[1..];
      }
      InsertKeepsOrder(xs[0], rest, key);
    }
  }

  ghost function KeysOf<T>(xs: seq<T>, key: T -> string): (keys: seq<string>)
    ensures |keys| == |xs| && forall i :: 0 <= i < |xs| ==> keys[i] == key(xs[i])
  {
    seq(|xs|, i requires 0 <= i < |xs| => key(xs[i]))
  }

  /** With ascending keys, the elements alone determine the sequence. */
  lemma KeysAscendUnique<T>(a: seq<T>, b: seq<T>, key: T -> string)
    requires KeysAscend(a, key) && KeysAscend(b, key)
    requires forall i :: 0 <= i < |a| ==> a[i] in b
    requires forall i :: 0 <= i < |b| ==> b[i] in a
    ensures a == b
  {
    var ka, kb := KeysOf(a, key), KeysOf(b, key);
    SameKeys(a, b, key);
    SameKeys(b, a, key);
    AscendingUnique(ka, kb);
    forall i | 0 <= i < |a| ensures a[i] == b[i] {
      assert ka[i] == kb[i];
      var j :| 0 <= j < |b| && b[j] == a[i];
      LtIrreflexive(key(b[i]));
      assert j == i;
    }
  }

  lemma SameKeys<T>(a: seq<T>, b: seq<T>, key: T -> string)
    requires forall i :: 0 <= i < |a| ==> a[i] in b
    ensures Elements(KeysOf(a, key)) <= Elements(KeysOf(b, key))
  {
    var ka, kb := KeysOf(a, key), KeysOf(b, key);
    forall k | k in Elements(ka) ensures k in Elements(kb) {
      var i :| 0 <= i < |ka| && ka[i] == k;
      var j :| 0 <= j < |b| && b[j] == a[i];
      assert kb[j] == k;
    }
  }

  /** Sorting forgets the order the elements arrived in. */
  lemma SortMeets<T>(xs: seq<T>, sorted: seq<T>, key: T -> string)
    requires KeysDiffer(xs, key)
    requires KeysAscend(sorted, key)
    requires forall i :: 0 <= i < |xs| ==> xs[i] in sorted
    requires forall i :: 0 <= i < |sorted| ==> sorted[i] in xs
    ensures SortBy(xs, key) == sorted
  {
    SortAscends(xs, key);
    SortPermutes(xs, key);
    var ys := SortBy(xs, key);
    forall i | 0 <= i < |ys| ensures ys[i] in sorted {
      assert ys[i] in multiset(ys);
      assert ys[i] in xs;
    }
    forall i | 0 <= i < |sorted| ensures sorted[i] in ys {
      assert sorted[i] in multiset(xs);
      assert sorted[i] in multiset(ys);
    }
    KeysAscendUnique(ys, sorted, key);
  }

  /** The members of `s` in the order `order` visits them. */
  function Visited(order: seq<string>, s: set<string>): (picked: seq<string>)
    ensures forall i :: 0 <= i < |picked| ==> picked[i] in s && picked[i] in order
  {
    if order == [] then []
    else
      var rest := Visited(order[..|order| - 1], s);
      if order[|order| - 1] in s then rest + [order[|order| - 1]] else rest
  }

  /** `order` visits every member of `s` exactly once. */
  ghost predicate Enumerates(order: seq<string>, s: set<string>) {
    && (forall i, j :: 0 <= i < j < |order| ==> order[i] != order[j])
    && Elements(order) == s
  }

  lemma {:induction false} VisitedOnce(order: seq<string>, s: set<string>)
    requires forall i, j :: 0 <= i < j < |order| ==> order[i] != order[j]
    ensures forall i, j :: 0 <= i < j < |Visited(order, s)| ==> Visited(order, s)[i] != Visited(order, s)[j]
    ensures forall x :: x in Visited(order, s) <==> x in s && x in order
  {
    if order != [] {
      var init := order[..|order| - 1];
      VisitedOnce(init, s);
      assert order == init + [order[|order| - 1]];
    }
  }

  lemma VisitedEnumerates(order: seq<string>, all: set<string>, s: set<string>)
    requires Enumerates(order, all) && s <= all
    ensures Enumerates(Visited(order, s), s)
  {
    VisitedOnce(order, s);
    var picked := Visited(order, s);
    forall x | x in s ensures x in Elements(picked) {
      assert x in Elements(order);
      assert x in picked;
    }
  }

  lemma {:induction false} SortedKeysOnce(s: set<string>)
    ensures multiset(SortedKeys(s)) == multiset(s)
    decreases |s|
  {
    if s != {} {
      var m := LeastOf(s);
      SortedKeysOnce(s - {m});
      assert SortedKeys(s) == [m] + SortedKeys(s - {m});
    }
  }

  lemma {:induction false} EnumerationOnce(order: seq<string>, s: set<string>)
    requires Enumerates(order, s)
    ensures multiset(order) == multiset(s)
    decreases |order|
  {
    if order != [] {
      var last := order[|order| - 1];
      var init := order[..|order| - 1];
      assert order == init + [last];
      assert Elements(init) == s - {last} by {
        forall x | x in s && x != last ensures x in Elements(init) {
          assert x in Elements(order);
        }
      }
      EnumerationOnce(init, s - {last});
      assert last in Elements(order);
    }
  }

  ghost predicate NoRepeats<T>(a: seq<T>) {
    forall i, j :: 0 <= i < j < |a| ==> a[i] != a[j]
  }

  lemma {:induction false} CountedOnce<T>(a: seq<T>, x: T)
    requires NoRepeats(a)
    ensures multiset(a)[x] == if x in a then 1 else 0
    decreases |a|
  {
    if a != [] {
      CountedOnce(a[1..], x);
      assert a == [a[0]] + a[1..];
    }
  }

  /** Without repeats, the elements determine a sequence up to its order. */
  lemma SameElements<T(!new)>(a: seq<T>, b: seq<T>)
    requires NoRepeats(a) && NoRepeats(b)
    requires forall i :: 0 <= i < |a| ==> a[i] in b
    requires forall i :: 0 <= i < |b| ==> b[i] in a
    ensures multiset(a) == multiset(b)
  {
    forall x: T ensures multiset(a)[x] == multiset(b)[x] {
      CountedOnce(a, x);
      CountedOnce(b, x);
    }
  }

  lemma VisitsKey(order: seq<string>, s: set<string>, i: nat)
    requires Elements(order) == s && i < |order|
    ensures order[i] in s
  {
    assert order[i] in Elements(order);
  }

  /** What holds of everything visited holds of the whole set. */
  lemma AllVisited(order: seq<string>, s: set<string>, good: set<string>)
    requires Elements(order) == s
    requires forall i :: 0 <= i < |order| ==> order[i] in good
    ensures s <= good
  {
    forall x | x in s ensures x in good {
      assert x in Elements(order);
    }
  }
}
