/** The key sort that FileHelper.Sort performs with LINQ OrderBy / OrderByDescending:
    a stable sort of a sequence by a key under a total preorder on keys.  The
    preorder is a parameter: for names it is the culture-sensitive default string
    comparer, which may call distinct strings equal. */
module KeySort {

  /** `le` is total (hence reflexive) and transitive: what a comparer promises. */
  ghost predicate TotalPreorder<K(!new)>(le: (K, K) -> bool) {
    && (forall a, b {:trigger le(a, b), le(b, a)} :: le(a, b) || le(b, a))
    && (forall a, b, c {:trigger le(a, b), le(b, c), le(a, c)} :: le(a, b) && le(b, c) ==> le(a, c))
  }

  /** Two keys that the comparer calls equal. */
  predicate Tied<K>(le: (K, K) -> bool, a: K, b: K) {
    le(a, b) && le(b, a)
  }

  ghost predicate SortedBy<T, K>(s: seq<T>, key: T -> K, le: (K, K) -> bool) {
    forall i, j :: 0 <= i < j < |s| ==> le(key(s[i]), key(s[j]))
  }

  /** The elements of `s` whose key ties with `k`, in their order in `s`. */
  function Ties<T, K>(s: seq<T>, key: T -> K, le: (K, K) -> bool, k: K): seq<T> {
    if s == [] then []
    else (if Tied(le, key(s[0]), k) then [s[0]] else []) + Ties(s[1..], key, le, k)
  }

  /** Place `x` just before the first element whose key is not below x's key. */
  function Insert<T, K>(x: T, r: seq<T>, key: T -> K, le: (K, K) -> bool): (s: seq<T>)
    ensures |s| == |r| + 1
  {
    if r == [] || le(key(x), key(r[0])) then [x] + r
    else [r[0]] + Insert(x, r[1..], key, le)
  }

  /** Enumerable.OrderBy(key) with comparer `le`: insertion sort, stable. */
  function OrderBy<T, K>(s: seq<T>, key: T -> K, le: (K, K) -> bool): (r: seq<T>)
    ensures |r| == |s|
  {
    if s == [] then [] else Insert(s[0], OrderBy(s[1..], key, le), key, le)
  }

  /** The reverse of a comparison, used for OrderByDescending.  OrderByDescending
      is stable too, so it is OrderBy under the reversed preorder (and not the
      reverse of OrderBy). */
  function Reverse<K>(le: (K, K) -> bool): (K, K) -> bool {
    (a, b) => le(b, a)
  }

  lemma ReverseIsTotalPreorder<K(!new)>(le: (K, K) -> bool)
    requires TotalPreorder(le)
    ensures TotalPreorder(Reverse(le))
  {
    var rev := Reverse(le);
    forall a, b, c | rev(a, b) && rev(b, c) ensures rev(a, c) {
      assert le(c, b) && le(b, a);
    }
  }

  lemma {:induction false} InsertPermutes<T, K>(x: T, r: seq<T>, key: T -> K, le: (K, K) -> bool)
    ensures multiset(Insert(x, r, key, le)) == multiset(r) + multiset{x}
  {
    if r == [] || le(key(x), key(r[0])) {
    } else {
      InsertPermutes(x, r[1..], key, le);
      assert r == [r[0]] + r[1..];
    }
  }

  /** The key sort returns a permutation of its input. */
  lemma {:induction false} OrderByPermutes<T, K>(s: seq<T>, key: T -> K, le: (K, K) -> bool)
    ensures multiset(OrderBy(s, key, le)) == multiset(s)
  {
    if s != [] {
      OrderByPermutes(s[1..], key, le);
      InsertPermutes(s[0], OrderBy(s[1..], key, le), key, le);
      assert s == [s[0]] + s[1..];
    }
  }

  lemma {:induction false} InsertSorted<T, K(!new)>(x: T, r: seq<T>, key: T -> K, le: (K, K) -> bool)
    requires TotalPreorder(le)
    requires SortedBy(r, key, le)
    ensures SortedBy(Insert(x, r, key, le), key, le)
  {
    if r == [] || le(key(x), key(r[0])) {
      var s := [x] + r;
      forall i, j | 0 <= i < j < |s| ensures le(key(s[i]), key(s[j])) {
        if i == 0 && j > 1 {
          assert le(key(r[0]), key(r[j - 1]));
        }
      }
    } else {
      var t := r[1..];
      InsertSorted(x, t, key, le);
      var ins := Insert(x, t, key, le);
      InsertPermutes(x, t, key, le);
      var s := [r[0]] + ins;
      forall i, j | 0 <= i < j < |s| ensures le(key(s[i]), key(s[j])) {
        if i == 0 {
          var y := s[j];
          assert y in multiset(ins);
          if y == x {
            assert le(key(r[0]), key(x));
          } else {
            assert y in multiset(t);
            var m :| 0 <= m < |t| && t[m] == y;
            assert r[m + 1] == y;
          }
        }
      }
    }
  }

  /** The key sort returns a sequence sorted by the key. */
  lemma {:induction false} OrderBySorted<T, K(!new)>(s: seq<T>, key: T -> K, le: (K, K) -> bool)
    requires TotalPreorder(le)
    ensures SortedBy(OrderBy(s, key, le), key, le)
  {
    if s != [] {
      OrderBySorted(s[1..], key, le);
      InsertSorted(s[0], OrderBy(s[1..], key, le), key, le);
    }
  }

  /** An element that x passes when it is inserted is strictly below x, so the two
      cannot both tie with one key. */
  lemma PassedNotTied<K(!new)>(le: (K, K) -> bool, kx: K, ky: K, k: K)
    requires TotalPreorder(le)
    requires !le(kx, ky)
    ensures !(Tied(le, kx, k) && Tied(le, ky, k))
  {
  }

  lemma ConsTies<T, K>(y: T, rest: seq<T>, key: T -> K, le: (K, K) -> bool, k: K)
    ensures Ties([y] + rest, key, le, k)
         == (if Tied(le, key(y), k) then [y] else []) + Ties(rest, key, le, k)
  {
    assert ([y] + rest)[1..] == rest;
  }

  lemma {:induction false} InsertTies<T, K(!new)>(x: T, r: seq<T>, key: T -> K, le: (K, K) -> bool, k: K)
    requires TotalPreorder(le)
    ensures Ties(Insert(x, r, key, le), key, le, k)
         == (if Tied(le, key(x), k) then [x] else []) + Ties(r, key, le, k)
  {
    if r == [] || le(key(x), key(r[0])) {
      ConsTies(x, r, key, le, k);
    } else {
      var rest := Insert(x, r[1..], key, le);
      InsertTies(x, r[1..], key, le, k);
      ConsTies(r[0], rest, key, le, k);
      PassedNotTied(le, key(x), key(r[0]), k);
      var hx := if Tied(le, key(x), k) then [x] else [];
      var hr := if Tied(le, key(r[0]), k) then [r[0]] else [];
      var tail := Ties(r[1..], key, le, k);
      if hx == [] {
        assert hr + (hx + tail) == hr + tail == hx + (hr + tail);
      } else {
        assert hr + (hx + tail) == hx + tail == hx + (hr + tail);
      }
    }
  }

  /** Stability: the elements whose keys tie keep their input order. */
  lemma {:induction false} OrderByStable<T, K(!new)>(s: seq<T>, key: T -> K, le: (K, K) -> bool, k: K)
    requires TotalPreorder(le)
    ensures Ties(OrderBy(s, key, le), key, le, k) == Ties(s, key, le, k)
  {
    if s != [] {
      OrderByStable(s[1..], key, le, k);
      InsertTies(s[0], OrderBy(s[1..], key, le), key, le, k);
    }
  }

  /** An input that is already sorted comes back unchanged. */
  lemma {:induction false} OrderBySortedInput<T, K(!new)>(s: seq<T>, key: T -> K, le: (K, K) -> bool)
    requires SortedBy(s, key, le)
    ensures OrderBy(s, key, le) == s
  {
    if s != [] {
      assert SortedBy(s[1..], key, le);
      OrderBySortedInput(s[1..], key, le);
      if |s| > 1 {
        assert le(key(s[0]), key(s[1]));
      }
      assert [s[0]] + s[1..] == s;
    }
  }

  /** Sorting twice is sorting once. */
  lemma OrderByIdempotent<T, K(!new)>(s: seq<T>, key: T -> K, le: (K, K) -> bool)
    requires TotalPreorder(le)
    ensures OrderBy(OrderBy(s, key, le), key, le) == OrderBy(s, key, le)
  {
    OrderBySorted(s, key, le);
    OrderBySortedInput(OrderBy(s, key, le), key, le);
  }
}
