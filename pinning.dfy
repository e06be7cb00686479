/** The pin pass of FileHelper.Sort: after the key sort, every pinned item is moved
    to the front of the list, keeping the sorted order inside both groups. */
module Pinning {

  /** The elements of `s` that satisfy `p`, in order. */
  function Keep<T>(s: seq<T>, p: T -> bool): (r: seq<T>)
    ensures |r| <= |s|
  {
    if s == [] then []
    else (if p(s[0]) then [s[0]] else []) + Keep(s[1..], p)
  }

  /** The elements of `s` that do not satisfy `p`, in order. */
  function Drop<T>(s: seq<T>, p: T -> bool): (r: seq<T>)
    ensures |r| <= |s|
  {
    if s == [] then []
    else (if p(s[0]) then [] else [s[0]]) + Drop(s[1..], p)
  }

  /** The stable partition of `s`: the pinned items first, then the others, each
      group in its order in `s`.  This is what the pin pass computes. */
  function PinnedFirst<T>(s: seq<T>, pinned: T -> bool): seq<T> {
    Keep(s, pinned) + Drop(s, pinned)
  }

  lemma KeepSuffix<T>(s: seq<T>, k: nat, p: T -> bool)
    requires k < |s|
    ensures Keep(s[k..], p) == (if p(s[k]) then [s[k]] else []) + Keep(s[k + 1..], p)
    ensures Drop(s[k..], p) == (if p(s[k]) then [] else [s[k]]) + Drop(s[k + 1..], p)
  {
    assert s[k..][1..] == s[k + 1..];
  }

  /** The list while the pin pass runs, once the last |list| - j items have been
      visited: the visited pinned items in front, the unvisited prefix list[..j] in
      the middle, the visited unpinned items behind. */
  function Stage<T>(list: seq<T>, pinned: T -> bool, j: nat): seq<T>
    requires j <= |list|
  {
    Keep(list[j..], pinned) + list[..j] + Drop(list[j..], pinned)
  }

  lemma StageStart<T>(list: seq<T>, pinned: T -> bool)
    ensures Stage(list, pinned, |list|) == list
  {
    assert list[|list|..] == [];
    assert list[..|list|] == list;
  }

  lemma StageEnd<T>(list: seq<T>, pinned: T -> bool)
    ensures Stage(list, pinned, 0) == PinnedFirst(list, pinned)
  {
    assert list[0..] == list;
  }

  /** Visiting a pinned item: RemoveAt(i) followed by Insert(0, item). */
  lemma StagePinned<T>(list: seq<T>, pinned: T -> bool, j: nat)
    requires 0 < j <= |list| && pinned(list[j - 1])
    ensures var cur, i := Stage(list, pinned, j), |Keep(list[j..], pinned)| + j - 1;
      && i < |cur| && cur[i] == list[j - 1]
      && [cur[i]] + (cur[..i] + cur[i + 1..]) == Stage(list, pinned, j - 1)
      && |Keep(list[j - 1..], pinned)| == |Keep(list[j..], pinned)| + 1
  {
    var k, d := Keep(list[j..], pinned), Drop(list[j..], pinned);
    var cur, i := Stage(list, pinned, j), |k| + j - 1;
    KeepSuffix(list, j - 1, pinned);
    assert cur[..i] == k + list[..j - 1];
    assert cur[i + 1..] == d;
    assert list[..j] == list[..j - 1] + [list[j - 1]];
  }

  /** Visiting an unpinned item leaves the list as it is. */
  lemma StageUnpinned<T>(list: seq<T>, pinned: T -> bool, j: nat)
    requires 0 < j <= |list| && !pinned(list[j - 1])
    ensures var cur, i := Stage(list, pinned, j), |Keep(list[j..], pinned)| + j - 1;
      && i < |cur| && cur[i] == list[j - 1]
      && cur == Stage(list, pinned, j - 1)
      && |Keep(list[j - 1..], pinned)| == |Keep(list[j..], pinned)|
  {
    KeepSuffix(list, j - 1, pinned);
    assert list[..j] == list[..j - 1] + [list[j - 1]];
  }

  /** The pin pass of FileHelper.Sort, on the list `sorted` that the key sort
      produced.  It walks from the back; a pinned item at index i is removed and
      re-inserted at index 0, `moved` counts those, and `i++` makes the loop look
      at index i again, which now holds the next unvisited item. */
  method PinPass<T>(list: seq<T>, pinned: T -> bool) returns (sorted: seq<T>)
    ensures sorted == PinnedFirst(list, pinned)
  {
    sorted := list;
    var moved := 0;
    var i := |sorted| - 1;
    StageStart(list, pinned);
    // i + 1 - moved items are still unvisited
    while i >= moved
      invariant 0 <= i + 1 - moved <= |list|
      invariant moved == |Keep(list[i + 1 - moved..], pinned)|
      invariant sorted == Stage(list, pinned, i + 1 - moved)
      decreases i - moved
    {
      ghost var unvisited := i + 1 - moved;
      var temp := sorted[i];
      if pinned(temp) {
        StagePinned(list, pinned, unvisited);
        sorted := [temp] + (sorted[..i] + sorted[i + 1..]);   // RemoveAt(i); Insert(0, temp)
        moved := moved + 1;
        i := i + 1;
      } else {
        StageUnpinned(list, pinned, unvisited);
      }
      i := i - 1;
      assert i + 1 - moved == unvisited - 1;
    }
    StageEnd(list, pinned);
  }

  /** Every element kept satisfies the predicate, every element dropped does not. */
  lemma {:induction false} KeepSatisfies<T>(s: seq<T>, p: T -> bool)
    ensures forall i :: 0 <= i < |Keep(s, p)| ==> p(Keep(s, p)[i])
    ensures forall i :: 0 <= i < |Drop(s, p)| ==> !p(Drop(s, p)[i])
  {
    if s != [] {
      KeepSatisfies(s[1..], p);
    }
  }

  lemma {:induction false} KeepAppend<T>(a: seq<T>, b: seq<T>, p: T -> bool)
    ensures Keep(a + b, p) == Keep(a, p) + Keep(b, p)
  {
    if a == [] {
      assert a + b == b;
    } else {
      var h := if p(a[0]) then [a[0]] else [];
      KeepAppend(a[1..], b, p);
      assert (a + b)[1..] == a[1..] + b;
      calc {
        Keep(a + b, p);
        h + Keep(a[1..] + b, p);
        h + (Keep(a[1..], p) + Keep(b, p));
        (h + Keep(a[1..], p)) + Keep(b, p);
      }
    }
  }

  lemma {:induction false} DropAppend<T>(a: seq<T>, b: seq<T>, p: T -> bool)
    ensures Drop(a + b, p) == Drop(a, p) + Drop(b, p)
  {
    if a == [] {
      assert a + b == b;
    } else {
      var h := if p(a[0]) then [] else [a[0]];
      DropAppend(a[1..], b, p);
      assert (a + b)[1..] == a[1..] + b;
      calc {
        Drop(a + b, p);
        h + Drop(a[1..] + b, p);
        h + (Drop(a[1..], p) + Drop(b, p));
        (h + Drop(a[1..], p)) + Drop(b, p);
      }
    }
  }

  lemma {:induction false} KeepPermutes<T>(s: seq<T>, p: T -> bool)
    ensures multiset(Keep(s, p)) + multiset(Drop(s, p)) == multiset(s)
  {
    if s != [] {
      KeepPermutes(s[1..], p);
      assert s == [s[0]] + s[1..];
      var kept := if p(s[0]) then [s[0]] else [];
      var dropped := if p(s[0]) then [] else [s[0]];
      assert multiset(Keep(s, p)) == multiset(kept) + multiset(Keep(s[1..], p));
      assert multiset(Drop(s, p)) == multiset(dropped) + multiset(Drop(s[1..], p));
      assert multiset(kept) + multiset(dropped) == multiset{s[0]};
    }
  }

  /** The pin pass returns a permutation of its input. */
  lemma PinnedFirstPermutes<T>(s: seq<T>, pinned: T -> bool)
    ensures multiset(PinnedFirst(s, pinned)) == multiset(s)
    ensures |PinnedFirst(s, pinned)| == |s|
  {
    KeepPermutes(s, pinned);
    assert |multiset(PinnedFirst(s, pinned))| == |multiset(s)|;
  }

  /** After the pin pass every pinned item precedes every unpinned one. */
  lemma PinnedPrecedeUnpinned<T>(s: seq<T>, pinned: T -> bool, i: int, j: int)
    requires 0 <= i < j < |PinnedFirst(s, pinned)|
    requires pinned(PinnedFirst(s, pinned)[j])
    ensures pinned(PinnedFirst(s, pinned)[i])
  {
    var k := Keep(s, pinned);
    var r := PinnedFirst(s, pinned);
    KeepSatisfies(s, pinned);
    assert forall m :: |k| <= m < |r| ==> r[m] == Drop(s, pinned)[m - |k|];
    assert j < |k|;
    assert r[i] == k[i];
  }

  /** Stability: inside each group the order of the input is kept. */
  lemma PinnedFirstStable<T>(s: seq<T>, pinned: T -> bool)
    ensures Keep(PinnedFirst(s, pinned), pinned) == Keep(s, pinned)
    ensures Drop(PinnedFirst(s, pinned), pinned) == Drop(s, pinned)
  {
    KeepAppend(Keep(s, pinned), Drop(s, pinned), pinned);
    DropAppend(Keep(s, pinned), Drop(s, pinned), pinned);
    KeepOfFiltered(s, pinned);
  }

  lemma KeepOfFiltered<T>(s: seq<T>, p: T -> bool)
    ensures Keep(Keep(s, p), p) == Keep(s, p) && Drop(Keep(s, p), p) == []
    ensures Keep(Drop(s, p), p) == [] && Drop(Drop(s, p), p) == Drop(s, p)
  {
    KeepSatisfies(s, p);
    AllKeep(Keep(s, p), p);
    NoneKeep(Drop(s, p), p);
  }

  lemma {:induction false} AllKeep<T>(s: seq<T>, p: T -> bool)
    requires forall i :: 0 <= i < |s| ==> p(s[i])
    ensures Keep(s, p) == s && Drop(s, p) == []
  {
    if s != [] {
      AllKeep(s[1..], p);
      assert [s[0]] + s[1..] == s;
    }
  }

  lemma {:induction false} NoneKeep<T>(s: seq<T>, p: T -> bool)
    requires forall i :: 0 <= i < |s| ==> !p(s[i])
    ensures Keep(s, p) == [] && Drop(s, p) == s
  {
    if s != [] {
      NoneKeep(s[1..], p);
      assert [s[0]] + s[1..] == s;
    }
  }

  /** Running the pin pass twice changes nothing. */
  lemma PinnedFirstIdempotent<T>(s: seq<T>, pinned: T -> bool)
    ensures PinnedFirst(PinnedFirst(s, pinned), pinned) == PinnedFirst(s, pinned)
  {
    PinnedFirstStable(s, pinned);
  }

  /** With nothing pinned the pin pass returns its input. */
  lemma NothingPinned<T>(s: seq<T>, pinned: T -> bool)
    requires forall i :: 0 <= i < |s| ==> !pinned(s[i])
    ensures PinnedFirst(s, pinned) == s
  {
    NoneKeep(s, pinned);
  }
}
