/** The byte order of strings and the ascending key order of an ordered map. */
module Strings {
  predicate Lt(a: string, b: string) {
    if b == "" then false
    else if a == "" then true
    else a[0] < b[0] || (a[0] == b[0] && Lt(a[1..], b[1..]))
  }

  lemma {:induction false} LtIrreflexive(a: string)
    ensures !Lt(a, a)
  {
    if a != "" {
      LtIrreflexive(a[1..]);
    }
  }

  lemma {:induction false} LtTransitive(a: string, b: string, c: string)
    requires Lt(a, b) && Lt(b, c)
    ensures Lt(a, c)
  {
    if a != "" && a[0] == b[0] && b[0] == c[0] {
      LtTransitive(a[1..], b[1..], c[1..]);
    }
  }

  lemma {:induction false} LtTotal(a: string, b: string)
    ensures a == b || Lt(a, b) || Lt(b, a)
  {
    if a != "" && b != "" && a[0] == b[0] {
      LtTotal(a[1..], b[1..]);
      assert a == [a[0]] + a[1..] && b == [b[0]] + b[1..];
    }
  }

  /** The strings agree up to `n`, where `a` ends first or has the smaller character. */
  predicate DiffersAt(a: string, b: string, n: nat) {
    && n <= |a| && n < |b|
    && a[..n] == b[..n]
    && (n == |a| || a[n] < b[n])
  }

  /** The order is the dictionary's. */
  lemma {:induction false} LtMeans(a: string, b: string)
    ensures Lt(a, b) <==> exists n: nat :: DiffersAt(a, b, n)
  {
    if a != "" && b != "" && a[0] == b[0] {
      LtMeans(a[1..], b[1..]);
      if n: nat :| DiffersAt(a[1..], b[1..], n) {
        assert a[..n + 1] == [a[0]] + a[1..][..n] && b[..n + 1] == [b[0]] + b[1..][..n];
        assert DiffersAt(a, b, n + 1);
      }
      if n: nat :| DiffersAt(a, b, n) {
        assert n > 0;
        assert a[1..][..n - 1] == a[..n][1..] && b[1..][..n - 1] == b[..n][1..];
        assert DiffersAt(a[1..], b[1..], n - 1);
      }
    } else if b != "" && (a == "" || a[0] < b[0]) {
      assert a[..0] == b[..0];
      assert DiffersAt(a, b, 0);
    } else {
      forall n: nat ensures !DiffersAt(a, b, n) {
        if 0 < n <= |a| && n < |b| {
          assert a[..n][0] == a[0] && b[..n][0] == b[0];
        }
      }
    }
  }

  predicate Least(m: string, s: set<string>) {
    m in s && forall x :: x in s && x != m ==> Lt(m, x)
  }

  lemma {:induction false} LeastExists(s: set<string>)
    requires s != {}
    ensures exists m :: Least(m, s)
    decreases |s|
  {
    var x :| x in s;
    var rest := s - {x};
    if rest == {} {
      assert s == {x};
      assert Least(x, s);
    } else {
      LeastExists(rest);
      var m :| Least(m, rest);
      LtTotal(x, m);
      if Lt(x, m) {
        forall y | y in s && y != x ensures Lt(x, y) {
          if y != m {
            LtTransitive(x, m, y);
          }
        }
        assert Least(x, s);
      } else {
        assert Least(m, s);
      }
    }
  }

  lemma LeastUnique(s: set<string>, m: string, n: string)
    requires Least(m, s) && Least(n, s)
    ensures m == n
  {
    if m != n {
      LtTransitive(m, n, m);
      LtIrreflexive(m);
    }
  }

  function LeastOf(s: set<string>): (m: string)
    requires s != {}
    ensures Least(m, s)
  {
    LeastExists(s);
    assert forall m, n :: Least(m, s) && Least(n, s) ==> m == n by {
      forall m, n | Least(m, s) && Least(n, s) ensures m == n { LeastUnique(s, m, n); }
    }
    var m :| Least(m, s);
    m
  }

  /** The keys of a map in ascending order. */
  function SortedKeys(s: set<string>): (keys: seq<string>)
    ensures forall i :: 0 <= i < |keys| ==> keys[i] in s
    decreases |s|
  {
    if s == {} then [] else [LeastOf(s)] + SortedKeys(s - {LeastOf(s)})
  }

  ghost predicate Ascending(a: seq<string>) {
    forall i, j :: 0 <= i < j < |a| ==> Lt(a[i], a[j])
  }

  ghost function Elements(a: seq<string>): set<string> {
    set i | 0 <= i < |a| :: a[i]
  }

  lemma {:induction false} SortedKeysSorted(s: set<string>)
    ensures Ascending(SortedKeys(s)) && Elements(SortedKeys(s)) == s
    decreases |s|
  {
    if s != {} {
      var m := LeastOf(s);
      var rest := SortedKeys(s - {m});
      SortedKeysSorted(s - {m});
      assert forall i :: 0 <= i < |rest| ==> rest[i] in Elements(rest);
      var all := SortedKeys(s);
      assert forall i :: 0 < i < |all| ==> all[i] == rest[i - 1];
      forall x | x in s ensures x in Elements(all) {
        if x == m {
          assert all[0] == x;
        } else {
          assert x in Elements(rest);
          var i :| 0 <= i < |rest| && rest[i] == x;
          assert all[i + 1] == x;
        }
      }
    }
  }

  /** An ascending sequence is determined by its elements. */
  lemma {:induction false} AscendingUnique(a: seq<string>, b: seq<string>)
    requires Ascending(a) && Ascending(b) && Elements(a) == Elements(b)
    ensures a == b
    decreases |a|
  {
    assert |b| > 0 ==> b[0] in Elements(b);
    if a != [] {
      assert a[0] in Elements(a);
      assert a[0] in Elements(b);
      assert b != [];
      assert b[0] in Elements(a);
      FirstIsLeast(a);
      FirstIsLeast(b);
      LeastUnique(Elements(a), a[0], b[0]);
      TailElements(a);
      TailElements(b);
      AscendingUnique(a[1..], b[1..]);
      assert a == [a[0]] + a[1..] && b == [b[0]] + b[1..];
    }
  }

  lemma FirstIsLeast(a: seq<string>)
    requires a != [] && Ascending(a)
    ensures Least(a[0], Elements(a))
  {
  }

  lemma TailElements(a: seq<string>)
    requires a != [] && Ascending(a)
    ensures Ascending(a[1..]) && Elements(a[1..]) == Elements(a) - {a[0]}
  {
    LtIrreflexive(a[0]);
    assert forall i :: 0 < i < |a| ==> a[i] == a[1..][i - 1];
  }

  lemma ElementsNext(keys: seq<string>, i: nat)
    requires i < |keys|
    ensures Elements(keys[..i + 1]) == Elements(keys[..i]) + {keys[i]}
  {
    var all, init := keys[..i + 1], keys[..i];
    assert all[i] == keys[i];
    assert forall j :: 0 <= j < i ==> all[j] == init[j];
  }
}
