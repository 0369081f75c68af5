/**
 Sorting by a string key, standing for sort.Strings and sort.Slice. Those promise a sorted
 permutation, which determines the result as soon as no two different elements share a key.
 */
module Sorting {

  /** Lexicographic order of strings. */
  predicate Leq(a: string, b: string) {
    a == [] || (b != [] && (a[0] < b[0] || (a[0] == b[0] && Leq(a[1..], b[1..]))))
  }

  lemma {:induction false} LeqTotal(a: string, b: string)
    ensures Leq(a, b) || Leq(b, a)
    ensures Leq(a, b) && Leq(b, a) ==> a == b
  {
    if a != [] && b != [] && a[0] == b[0] {
      LeqTotal(a[1..], b[1..]);
      assert a == [a[0]] + a[1..] && b == [b[0]] + b[1..];
    }
  }

  lemma {:induction false} LeqTransitive(a: string, b: string, c: string)
    requires Leq(a, b) && Leq(b, c)
    ensures Leq(a, c)
  {
    if a != [] && a[0] == b[0] == c[0] {
      LeqTransitive(a[1..], b[1..], c[1..]);
    }
  }

  ghost predicate Sorted<T>(s: seq<T>, key: T -> string) {
    forall i, j :: 0 <= i < j < |s| ==> Leq(key(s[i]), key(s[j]))
  }

  /** No two different elements share a key. */
  ghost predicate KeysIdentify<T>(s: seq<T>, key: T -> string) {
    forall i, j :: 0 <= i < j < |s| && key(s[i]) == key(s[j]) ==> s[i] == s[j]
  }

  function Insert<T>(x: T, s: seq<T>, key: T -> string): seq<T> {
    if s == [] || Leq(key(x), key(s[0])) then [x] + s else [s[0]] + Insert(x, s[1..], key)
  }

  function SortBy<T>(s: seq<T>, key: T -> string): seq<T> {
    if s == [] then [] else Insert(s[0], SortBy(s[1..], key), key)
  }

  lemma {:induction false} InsertSorts<T>(x: T, s: seq<T>, key: T -> string)
    requires Sorted(s, key)
    ensures Sorted(Insert(x, s, key), key)
    ensures multiset(Insert(x, s, key)) == multiset(s) + multiset{x}
  {
    if s == [] {
    } else if Leq(key(x), key(s[0])) {
      forall j | 0 <= j < |s|
        ensures Leq(key(x), key(s[j]))
      {
        if j > 0 { LeqTransitive(key(x), key(s[0]), key(s[j])); }
      }
    } else {
      InsertSorts(x, s[1..], key);
      assert s == [s[0]] + s[1..];
      var rest := Insert(x, s[1..], key);
      LeqTotal(key(x), key(s[0]));
      forall j | 0 <= j < |rest|
        ensures Leq(key(s[0]), key(rest[j]))
      {
        assert rest[j] in multiset(rest);
        if rest[j] != x {
          assert rest[j] in multiset(s[1..]);
          var m :| 0 <= m < |s[1..]| && s[1..][m] == rest[j];
          assert s[m + 1] == rest[j];
        }
      }
    }
  }

  /** The result is a sorted permutation. */
  lemma {:induction false} SortBySorts<T>(s: seq<T>, key: T -> string)
    ensures Sorted(SortBy(s, key), key) && multiset(SortBy(s, key)) == multiset(s)
  {
    if s != [] {
      SortBySorts(s[1..], key);
      InsertSorts(s[0], SortBy(s[1..], key), key);
      assert s == [s[0]] + s[1..];
    }
  }

  /** Sorted permutations of one another whose keys identify the elements start alike. */
  lemma SameHead<T>(s: seq<T>, t: seq<T>, key: T -> string)
    requires Sorted(s, key) && Sorted(t, key) && KeysIdentify(s, key)
    requires multiset(s) == multiset(t) && s != [] && t != []
    ensures s[0] == t[0]
  {
    assert s[0] in multiset(t) && t[0] in multiset(s);
    var m :| 0 <= m < |t| && t[m] == s[0];
    var n :| 0 <= n < |s| && s[n] == t[0];
    LeqTotal(key(s[0]), key(t[0]));
  }

  /** Two sorted permutations of one another whose keys identify the elements are equal. */
  lemma RestAgrees<T>(s: seq<T>, t: seq<T>)
    requires s != [] && t != [] && s[0] == t[0] && multiset(s) == multiset(t)
    ensures multiset(s[1..]) == multiset(t[1..])
  {
    assert s == [s[0]] + s[1..] && t == [t[0]] + t[1..];
    assert multiset(s[1..]) == multiset(s) - multiset{s[0]} == multiset(t[1..]);
  }

  lemma RestIdentifies<T>(s: seq<T>, key: T -> string)
    requires s != [] && KeysIdentify(s, key)
    ensures KeysIdentify(s[1..], key)
  {
  }

  lemma {:induction false} SortedUnique<T>(s: seq<T>, t: seq<T>, key: T -> string)
    requires Sorted(s, key) && Sorted(t, key) && KeysIdentify(s, key)
    requires multiset(s) == multiset(t)
    ensures s == t
  {
    assert |multiset(s)| == |s| && |multiset(t)| == |t|;
    if s != [] {
      SameHead(s, t, key);
      RestAgrees(s, t);
      RestIdentifies(s, key);
      SortedUnique(s[1..], t[1..], key);
    }
  }

  /** Sorting forgets the input order when keys identify the elements. */
  lemma SortIgnoresOrder<T>(s: seq<T>, t: seq<T>, key: T -> string)
    requires KeysIdentify(s, key) && multiset(s) == multiset(t)
    ensures SortBy(s, key) == SortBy(t, key)
  {
    SortBySorts(s, key);
    SortBySorts(t, key);
    var sorted := SortBy(s, key);
    forall i, j | 0 <= i < j < |sorted| && key(sorted[i]) == key(sorted[j])
      ensures sorted[i] == sorted[j]
    {
      assert sorted[i] in multiset(s) && sorted[j] in multiset(s);
      var m :| 0 <= m < |s| && s[m] == sorted[i];
      var n :| 0 <= n < |s| && s[n] == sorted[j];
    }
    SortedUnique(sorted, SortBy(t, key), key);
  }
}
