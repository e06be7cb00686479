/** FileHelper.Sort and FileHelper.SortProfiles: the order in which profiles,
    folders and notes are saved. */
module Ordering {
  import opened Wrappers
  import opened KeySort
  import opened Pinning
  import opened Text
  import opened Hierarchy

  /** `f` applied to every element. */
  function MapSeq<T>(f: T -> T, s: seq<T>): (r: seq<T>)
    ensures |r| == |s|
    ensures forall i :: 0 <= i < |s| ==> r[i] == f(s[i])
  {
    seq(|s|, i requires 0 <= i < |s| => f(s[i]))
  }

  lemma MapCons<T>(f: T -> T, x: T, s: seq<T>)
    ensures MapSeq(f, [x] + s) == [f(x)] + MapSeq(f, s)
  {
  }

  lemma MapAppend<T>(f: T -> T, a: seq<T>, b: seq<T>)
    ensures MapSeq(f, a + b) == MapSeq(f, a) + MapSeq(f, b)
  {
  }

  lemma MapCompose<T>(f: T -> T, s: seq<T>)
    requires forall x :: f(f(x)) == f(x)
    ensures MapSeq(f, MapSeq(f, s)) == MapSeq(f, s)
  {
  }

  function Not<T>(p: T -> bool): T -> bool {
    x => !p(x)
  }

  /** Everything that Keep keeps comes from the input. */
  lemma KeepFromInput<T>(s: seq<T>, p: T -> bool)
    ensures forall y :: y in Keep(s, p) ==> y in s
  {
    KeepPermutes(s, p);
    forall y | y in Keep(s, p) ensures y in s {
      assert y in multiset(Keep(s, p));
    }
  }

  lemma {:induction false} DropIsKeepNot<T>(s: seq<T>, p: T -> bool)
    ensures Drop(s, p) == Keep(s, Not(p))
  {
    if s != [] {
      DropIsKeepNot(s[1..], p);
    }
  }

  /** Filtering commutes with inserting into a sorted list. */
  lemma {:induction false} KeepInsert<T, K(!new)>(x: T, r: seq<T>, key: T -> K, le: (K, K) -> bool, p: T -> bool)
    requires TotalPreorder(le) && SortedBy(r, key, le)
    ensures Keep(Insert(x, r, key, le), p) == if p(x) then Insert(x, Keep(r, p), key, le) else Keep(r, p)
  {
    if r == [] {
      assert [x][1..] == [];
    } else if le(key(x), key(r[0])) {
      assert ([x] + r)[0] == x && ([x] + r)[1..] == r;
      var kr := Keep(r, p);
      if kr != [] {
        KeepFromInput(r, p);
        assert kr[0] in r;
        var j :| 0 <= j < |r| && r[j] == kr[0];
        if j > 0 {
          assert le(key(r[0]), key(r[j]));
        }
      }
    } else {
      var rest := r[1..];
      var ins := [r[0]] + Insert(x, rest, key, le);
      assert Insert(x, r, key, le) == ins;
      assert ins[0] == r[0] && ins[1..] == Insert(x, rest, key, le);
      var head := if p(r[0]) then [r[0]] else [];
      assert Keep(ins, p) == head + Keep(Insert(x, rest, key, le), p);
      assert Keep(r, p) == head + Keep(rest, p);
      assert SortedBy(rest, key, le);
      KeepInsert(x, rest, key, le, p);
      if p(x) && p(r[0]) {
        var kr := [r[0]] + Keep(rest, p);
        assert kr[0] == r[0] && kr[1..] == Keep(rest, p);
        assert Insert(x, kr, key, le) == [r[0]] + Insert(x, Keep(rest, p), key, le);
      } else if p(x) {
        assert Keep(r, p) == Keep(rest, p);
        assert Keep(ins, p) == Keep(Insert(x, rest, key, le), p);
      } else {
        assert Keep(ins, p) == head + Keep(rest, p);
      }
    }
  }

  /** Filtering commutes with the stable key sort. */
  lemma {:induction false} KeepOrderBy<T, K(!new)>(s: seq<T>, key: T -> K, le: (K, K) -> bool, p: T -> bool)
    requires TotalPreorder(le)
    ensures Keep(OrderBy(s, key, le), p) == OrderBy(Keep(s, p), key, le)
  {
    if s != [] {
      OrderBySorted(s[1..], key, le);
      KeepInsert(s[0], OrderBy(s[1..], key, le), key, le, p);
      KeepOrderBy(s[1..], key, le, p);
      assert Keep(s, p) == (if p(s[0]) then [s[0]] else []) + Keep(s[1..], p);
      if p(s[0]) {
        var ks := [s[0]] + Keep(s[1..], p);
        assert ks[0] == s[0] && ks[1..] == Keep(s[1..], p);
        assert OrderBy(ks, key, le) == Insert(s[0], OrderBy(Keep(s[1..], p), key, le), key, le);
      } else {
        assert Keep(s, p) == Keep(s[1..], p);
      }
    }
  }

  lemma DropOrderBy<T, K(!new)>(s: seq<T>, key: T -> K, le: (K, K) -> bool, p: T -> bool)
    requires TotalPreorder(le)
    ensures Drop(OrderBy(s, key, le), p) == OrderBy(Drop(s, p), key, le)
  {
    DropIsKeepNot(s, p);
    DropIsKeepNot(OrderBy(s, key, le), p);
    KeepOrderBy(s, key, le, Not(p));
  }

  /** A map that leaves keys alone commutes with insertion. */
  lemma {:induction false} InsertMap<T, K>(f: T -> T, x: T, r: seq<T>, key: T -> K, le: (K, K) -> bool)
    requires forall y :: key(f(y)) == key(y)
    ensures MapSeq(f, Insert(x, r, key, le)) == Insert(f(x), MapSeq(f, r), key, le)
  {
    if r == [] || le(key(x), key(r[0])) {
      MapCons(f, x, r);
    } else {
      InsertMap(f, x, r[1..], key, le);
      MapCons(f, r[0], Insert(x, r[1..], key, le));
      var m := MapSeq(f, r);
      assert m[0] == f(r[0]) && m[1..] == MapSeq(f, r[1..]);
      assert key(f(x)) == key(x) && key(m[0]) == key(r[0]);
      assert Insert(f(x), m, key, le) == [m[0]] + Insert(f(x), m[1..], key, le);
    }
  }

  /** A map that leaves keys alone commutes with the key sort. */
  lemma {:induction false} OrderByMap<T, K>(f: T -> T, s: seq<T>, key: T -> K, le: (K, K) -> bool)
    requires forall y :: key(f(y)) == key(y)
    ensures MapSeq(f, OrderBy(s, key, le)) == OrderBy(MapSeq(f, s), key, le)
  {
    if s != [] {
      OrderByMap(f, s[1..], key, le);
      InsertMap(f, s[0], OrderBy(s[1..], key, le), key, le);
      MapCons(f, s[0], s[1..]);
      assert [s[0]] + s[1..] == s;
      var m := MapSeq(f, s);
      assert m[0] == f(s[0]) && m[1..] == MapSeq(f, s[1..]);
    }
  }

  /** A map that leaves the predicate alone commutes with filtering. */
  lemma {:induction false} KeepMap<T>(f: T -> T, s: seq<T>, p: T -> bool)
    requires forall y :: p(f(y)) == p(y)
    ensures Keep(MapSeq(f, s), p) == MapSeq(f, Keep(s, p))
  {
    if s != [] {
      var m := MapSeq(f, s);
      assert m[0] == f(s[0]) && m[1..] == MapSeq(f, s[1..]);
      var head := if p(s[0]) then [s[0]] else [];
      assert Keep(m, p) == MapSeq(f, head) + Keep(MapSeq(f, s[1..]), p);
      KeepMap(f, s[1..], p);
      MapAppend(f, head, Keep(s[1..], p));
    }
  }

  lemma DropMap<T>(f: T -> T, s: seq<T>, p: T -> bool)
    requires forall y :: p(f(y)) == p(y)
    ensures Drop(MapSeq(f, s), p) == MapSeq(f, Drop(s, p))
  {
    DropIsKeepNot(s, p);
    DropIsKeepNot(MapSeq(f, s), p);
    KeepMap(f, s, Not(p));
  }

  datatype OrderType = Ascending | Descending

  /** The comparison the key sort uses: OrderBy keeps it, OrderByDescending reverses it. */
  function Direction<K>(compare: (K, K) -> bool, orderType: OrderType): (K, K) -> bool {
    if orderType == Ascending then compare else Reverse(compare)
  }

  lemma DirectionIsTotalPreorder<K(!new)>(compare: (K, K) -> bool, orderType: OrderType)
    requires TotalPreorder(compare)
    ensures TotalPreorder(Direction(compare, orderType))
  {
    if orderType == Descending {
      ReverseIsTotalPreorder(compare);
    }
  }

  /** The order FileHelper.Sort produces, stated directly: for a pinnable element
      type, the pinned elements sorted by key, then the unpinned ones sorted by
      key; otherwise all elements sorted by key.  Sorting is stable. */
  function Arrange<T, K>(collection: seq<T>, key: T -> K, compare: (K, K) -> bool,
                         orderType: OrderType, pinned: Option<T -> bool>): seq<T>
  {
    var le := Direction(compare, orderType);
    match pinned
    case None => OrderBy(collection, key, le)
    case Some(p) => OrderBy(Keep(collection, p), key, le) + OrderBy(Drop(collection, p), key, le)
  }

  /** FileHelper.Sort: the key sort, then (when the element type is pinnable, which
      `pinned` says) the pass moving pinned items to the top. */
  method Sort<T, K(!new)>(collection: seq<T>, key: T -> K, compare: (K, K) -> bool,
                          orderType: OrderType, pinned: Option<T -> bool>) returns (sorted: seq<T>)
    requires TotalPreorder(compare)
    ensures sorted == Arrange(collection, key, compare, orderType, pinned)
  {
    if orderType == Ascending {
      sorted := OrderBy(collection, key, compare);
    } else {
      sorted := OrderBy(collection, key, Reverse(compare));
    }
    if pinned.Some? {
      sorted := PinPass(sorted, pinned.value);
      DirectionIsTotalPreorder(compare, orderType);
      KeepOrderBy(collection, key, Direction(compare, orderType), pinned.value);
      DropOrderBy(collection, key, Direction(compare, orderType), pinned.value);
    }
  }

  /** The result holds the same elements. */
  lemma ArrangePermutes<T, K>(s: seq<T>, key: T -> K, compare: (K, K) -> bool,
                              orderType: OrderType, pinned: Option<T -> bool>)
    ensures multiset(Arrange(s, key, compare, orderType, pinned)) == multiset(s)
    ensures |Arrange(s, key, compare, orderType, pinned)| == |s|
  {
    var le := Direction(compare, orderType);
    match pinned
    case None =>
      OrderByPermutes(s, key, le);
    case Some(p) =>
      OrderByPermutes(Keep(s, p), key, le);
      OrderByPermutes(Drop(s, p), key, le);
      KeepPermutes(s, p);
      assert multiset(Arrange(s, key, compare, orderType, pinned)) == multiset(s);
      assert |Arrange(s, key, compare, orderType, pinned)| == |multiset(s)|;
  }

  /** The sorted pinned group holds only pinned items, the other group none. */
  lemma GroupsSatisfy<T, K>(s: seq<T>, key: T -> K, le: (K, K) -> bool, p: T -> bool)
    ensures forall x :: x in OrderBy(Keep(s, p), key, le) ==> p(x)
    ensures forall x :: x in OrderBy(Drop(s, p), key, le) ==> !p(x)
  {
    OrderByPermutes(Keep(s, p), key, le);
    OrderByPermutes(Drop(s, p), key, le);
    KeepSatisfies(s, p);
    forall x | x in OrderBy(Keep(s, p), key, le) ensures p(x) {
      assert x in multiset(Keep(s, p));
      var i :| 0 <= i < |Keep(s, p)| && Keep(s, p)[i] == x;
    }
    forall x | x in OrderBy(Drop(s, p), key, le) ensures !p(x) {
      assert x in multiset(Drop(s, p));
      var i :| 0 <= i < |Drop(s, p)| && Drop(s, p)[i] == x;
    }
  }

  /** Pinned items come first, and items of the same group are in key order
      (ascending or descending as asked). */
  lemma ArrangeOrdered<T, K(!new)>(s: seq<T>, key: T -> K, compare: (K, K) -> bool,
                                   orderType: OrderType, pinned: T -> bool, i: int, j: int)
    requires TotalPreorder(compare)
    requires 0 <= i < j < |Arrange(s, key, compare, orderType, Some(pinned))|
    ensures var r := Arrange(s, key, compare, orderType, Some(pinned));
      && (pinned(r[j]) ==> pinned(r[i]))
      && (pinned(r[i]) == pinned(r[j]) ==> Direction(compare, orderType)(key(r[i]), key(r[j])))
  {
    var le := Direction(compare, orderType);
    DirectionIsTotalPreorder(compare, orderType);
    var a, b := OrderBy(Keep(s, pinned), key, le), OrderBy(Drop(s, pinned), key, le);
    var r := a + b;
    GroupsSatisfy(s, key, le, pinned);
    OrderBySorted(Keep(s, pinned), key, le);
    OrderBySorted(Drop(s, pinned), key, le);
    if j < |a| {
      assert r[i] == a[i] && r[j] == a[j];
    } else if i >= |a| {
      assert r[i] == b[i - |a|] && r[j] == b[j - |a|];
    } else {
      assert r[i] == a[i] && r[j] == b[j - |a|];
    }
  }

  /** Sorting what is already sorted changes nothing. */
  lemma ArrangeIdempotent<T, K(!new)>(s: seq<T>, key: T -> K, compare: (K, K) -> bool,
                                      orderType: OrderType, pinned: Option<T -> bool>)
    requires TotalPreorder(compare)
    ensures Arrange(Arrange(s, key, compare, orderType, pinned), key, compare, orderType, pinned)
         == Arrange(s, key, compare, orderType, pinned)
  {
    var le := Direction(compare, orderType);
    DirectionIsTotalPreorder(compare, orderType);
    match pinned
    case None =>
      OrderByIdempotent(s, key, le);
    case Some(p) =>
      var a, b := OrderBy(Keep(s, p), key, le), OrderBy(Drop(s, p), key, le);
      GroupsSatisfy(s, key, le, p);
      AllKeep(a, p);
      NoneKeep(b, p);
      KeepAppend(a, b, p);
      DropAppend(a, b, p);
      OrderByIdempotent(Keep(s, p), key, le);
      OrderByIdempotent(Drop(s, p), key, le);
      assert Keep(a + b, p) == a && Drop(a + b, p) == b;
      assert Arrange(a + b, key, compare, orderType, pinned) == OrderBy(a, key, le) + OrderBy(b, key, le);
  }

  /** A change to the elements that leaves their keys and pins alone commutes with
      sorting. */
  lemma ArrangeMap<T, K>(f: T -> T, s: seq<T>, key: T -> K, compare: (K, K) -> bool,
                         orderType: OrderType, pinned: Option<T -> bool>)
    requires forall y :: key(f(y)) == key(y)
    requires pinned.Some? ==> forall y :: pinned.value(f(y)) == pinned.value(y)
    ensures MapSeq(f, Arrange(s, key, compare, orderType, pinned)) == Arrange(MapSeq(f, s), key, compare, orderType, pinned)
  {
    var le := Direction(compare, orderType);
    match pinned
    case None =>
      OrderByMap(f, s, key, le);
    case Some(p) =>
      OrderByMap(f, Keep(s, p), key, le);
      OrderByMap(f, Drop(s, p), key, le);
      KeepMap(f, s, p);
      DropMap(f, s, p);
      MapAppend(f, OrderBy(Keep(s, p), key, le), OrderBy(Drop(s, p), key, le));
  }

  function NoteStamp(n: NoteValue): int { n.lastModified }
  function NotePinned(n: NoteValue): bool { n.pinned }
  function FolderName(f: FolderValue): string { f.name }
  function FolderPinned(f: FolderValue): bool { f.pinned }
  function ProfileName(p: ProfileValue): Option<string> { p.name }

  /** DateTime comparison: by tick count. */
  function TickOrder(a: int, b: int): bool { a <= b }

  /** Comparer<object>.Default on a string property: null precedes every string,
      two strings are compared by `compare`. */
  function NullFirst(compare: (string, string) -> bool): (Option<string>, Option<string>) -> bool {
    (a: Option<string>, b: Option<string>) => a.None? || (b.Some? && compare(a.value, b.value))
  }

  lemma NullFirstIsTotalPreorder(compare: (string, string) -> bool)
    requires TotalPreorder(compare)
    ensures TotalPreorder(NullFirst(compare))
  {
    var le := NullFirst(compare);
    forall a, b, c | le(a, b) && le(b, c) ensures le(a, c) {
      if a.Some? {
        assert compare(a.value, b.value) && compare(b.value, c.value);
      }
    }
  }

  /** A folder's notes as saved: pinned first, newest first within each group. */
  function SortedNotes(ns: seq<NoteValue>): seq<NoteValue> {
    Arrange(ns, NoteStamp, TickOrder, Descending, Some(NotePinned))
  }

  function WithSortedNotes(f: FolderValue): FolderValue {
    f.(notes := SortedNotes(f.notes))
  }

  /** A profile's folders as saved: pinned first, by name within each group, each
      with its notes sorted. */
  function SortedFolders(fs: seq<FolderValue>, compare: (string, string) -> bool): seq<FolderValue> {
    MapSeq(WithSortedNotes, Arrange(fs, FolderName, compare, Ascending, Some(FolderPinned)))
  }

  function WithSortedFolders(compare: (string, string) -> bool): ProfileValue -> ProfileValue {
    (p: ProfileValue) => p.(folders := SortedFolders(p.folders, compare))
  }

  /** The profiles as saved: by name (profiles cannot be pinned), each with its
      folders sorted. */
  function SavedOrder(ps: seq<ProfileValue>, compare: (string, string) -> bool): seq<ProfileValue> {
    MapSeq(WithSortedFolders(compare), Arrange(ps, ProfileName, NullFirst(compare), Ascending, None))
  }

  /** FileHelper.SortProfiles on the deep clone: sort the profiles by name, then each
      profile's folders by name, then each folder's notes by LastModified, newest
      first.  The assignments to the clone's Folders and Notes properties become
      updates of the sequences. */
  method SortProfiles(clone: seq<ProfileValue>, compare: (string, string) -> bool) returns (sorted: seq<ProfileValue>)
    requires TotalPreorder(compare)
    ensures sorted == SavedOrder(clone, compare)
  {
    NullFirstIsTotalPreorder(compare);
    sorted := Sort(clone, ProfileName, NullFirst(compare), Ascending, None);
    ghost var byName := sorted;
    var k := 0;
    while k < |sorted|
      invariant 0 <= k <= |sorted| == |byName|
      invariant forall q :: 0 <= q < k ==> sorted[q] == WithSortedFolders(compare)(byName[q])
      invariant forall q :: k <= q < |sorted| ==> sorted[q] == byName[q]
    {
      var profile := sorted[k];
      var folders := SortFolders(profile.folders, compare);
      sorted := sorted[k := profile.(folders := folders)];
      k := k + 1;
    }
  }

  /** The folder loop of SortProfiles: one profile's folders sorted, then each
      folder's notes. */
  method SortFolders(fs: seq<FolderValue>, compare: (string, string) -> bool) returns (folders: seq<FolderValue>)
    requires TotalPreorder(compare)
    ensures folders == SortedFolders(fs, compare)
  {
    folders := Sort(fs, FolderName, compare, Ascending, Some(FolderPinned));
    ghost var byFolderName := folders;
    var m := 0;
    while m < |folders|
      invariant 0 <= m <= |folders| == |byFolderName|
      invariant forall q :: 0 <= q < m ==> folders[q] == WithSortedNotes(byFolderName[q])
      invariant forall q :: m <= q < |folders| ==> folders[q] == byFolderName[q]
    {
      var folder := folders[m];
      var notes := Sort(folder.notes, NoteStamp, TickOrder, Descending, Some(NotePinned));
      folders := folders[m := folder.(notes := notes)];
      m := m + 1;
    }
  }

  lemma WithSortedNotesIdempotent(f: FolderValue)
    ensures WithSortedNotes(WithSortedNotes(f)) == WithSortedNotes(f)
  {
    ArrangeIdempotent(f.notes, NoteStamp, TickOrder, Descending, Some(NotePinned));
  }

  lemma SortedFoldersIdempotent(fs: seq<FolderValue>, compare: (string, string) -> bool)
    requires TotalPreorder(compare)
    ensures SortedFolders(SortedFolders(fs, compare), compare) == SortedFolders(fs, compare)
  {
    var a := Arrange(fs, FolderName, compare, Ascending, Some(FolderPinned));
    ArrangeMap(WithSortedNotes, a, FolderName, compare, Ascending, Some(FolderPinned));
    ArrangeIdempotent(fs, FolderName, compare, Ascending, Some(FolderPinned));
    forall f ensures WithSortedNotes(WithSortedNotes(f)) == WithSortedNotes(f) {
      WithSortedNotesIdempotent(f);
    }
    MapCompose(WithSortedNotes, a);
  }

  /** Saving sorted profiles again saves them in the same order. */
  lemma SavedOrderIdempotent(ps: seq<ProfileValue>, compare: (string, string) -> bool)
    requires TotalPreorder(compare)
    ensures SavedOrder(SavedOrder(ps, compare), compare) == SavedOrder(ps, compare)
  {
    var wp := WithSortedFolders(compare);
    var a := Arrange(ps, ProfileName, NullFirst(compare), Ascending, None);
    NullFirstIsTotalPreorder(compare);
    ArrangeMap(wp, a, ProfileName, NullFirst(compare), Ascending, None);
    ArrangeIdempotent(ps, ProfileName, NullFirst(compare), Ascending, None);
    forall p ensures wp(wp(p)) == wp(p) {
      SortedFoldersIdempotent(p.folders, compare);
    }
    MapCompose(wp, a);
  }

  /** Sorting keeps every note, and only reorders them. */
  lemma SortedNotesPermutes(ns: seq<NoteValue>)
    ensures multiset(SortedNotes(ns)) == multiset(ns)
  {
    ArrangePermutes(ns, NoteStamp, TickOrder, Descending, Some(NotePinned));
  }

  /** The saved folders are the input folders, each with its notes sorted, reordered. */
  lemma SortedFoldersPermutes(fs: seq<FolderValue>, compare: (string, string) -> bool)
    ensures multiset(SortedFolders(fs, compare)) == multiset(MapSeq(WithSortedNotes, fs))
  {
    ArrangeMap(WithSortedNotes, fs, FolderName, compare, Ascending, Some(FolderPinned));
    ArrangePermutes(MapSeq(WithSortedNotes, fs), FolderName, compare, Ascending, Some(FolderPinned));
  }

  /** The saved profiles are the input profiles, each with its folders sorted, reordered. */
  lemma SavedOrderPermutes(ps: seq<ProfileValue>, compare: (string, string) -> bool)
    ensures multiset(SavedOrder(ps, compare)) == multiset(MapSeq(WithSortedFolders(compare), ps))
  {
    var wp := WithSortedFolders(compare);
    ArrangeMap(wp, ps, ProfileName, NullFirst(compare), Ascending, None);
    ArrangePermutes(MapSeq(wp, ps), ProfileName, NullFirst(compare), Ascending, None);
  }

  /** Pinned notes first; newest first among pinned and among unpinned notes. */
  lemma SortedNotesOrdered(ns: seq<NoteValue>, i: int, j: int)
    requires 0 <= i < j < |SortedNotes(ns)|
    ensures var r := SortedNotes(ns);
      && (r[j].pinned ==> r[i].pinned)
      && (r[i].pinned == r[j].pinned ==> r[i].lastModified >= r[j].lastModified)
  {
    var r := SortedNotes(ns);
    assert TotalPreorder(TickOrder);
    ArrangeOrdered(ns, NoteStamp, TickOrder, Descending, NotePinned, i, j);
    assert NotePinned(r[j]) ==> NotePinned(r[i]);
    if r[i].pinned == r[j].pinned {
      var le := Direction(TickOrder, Descending);
      assert le(NoteStamp(r[i]), NoteStamp(r[j]));
      assert le(NoteStamp(r[i]), NoteStamp(r[j])) == TickOrder(NoteStamp(r[j]), NoteStamp(r[i]));
    }
  }

  /** Pinned folders first; by name among pinned and among unpinned folders. */
  lemma SortedFoldersOrdered(fs: seq<FolderValue>, compare: (string, string) -> bool, i: int, j: int)
    requires TotalPreorder(compare)
    requires 0 <= i < j < |SortedFolders(fs, compare)|
    ensures var r := SortedFolders(fs, compare);
      && (r[j].pinned ==> r[i].pinned)
      && (r[i].pinned == r[j].pinned ==> compare(r[i].name, r[j].name))
  {
    ArrangeMap(WithSortedNotes, fs, FolderName, compare, Ascending, Some(FolderPinned));
    ArrangeOrdered(MapSeq(WithSortedNotes, fs), FolderName, compare, Ascending, FolderPinned, i, j);
  }

  /** Profiles by name, a null name first. */
  lemma SavedOrderOrdered(ps: seq<ProfileValue>, compare: (string, string) -> bool, i: int, j: int)
    requires TotalPreorder(compare)
    requires 0 <= i < j < |SavedOrder(ps, compare)|
    ensures var r := SavedOrder(ps, compare);
      NullFirst(compare)(r[i].name, r[j].name)
  {
    var wp := WithSortedFolders(compare);
    NullFirstIsTotalPreorder(compare);
    ArrangeMap(wp, ps, ProfileName, NullFirst(compare), Ascending, None);
    OrderBySorted(MapSeq(wp, ps), ProfileName, NullFirst(compare));
  }

  lemma OrderBySingle<T, K>(x: T, key: T -> K, le: (K, K) -> bool)
    ensures OrderBy([x], key, le) == [x]
  {
    assert [x][1..] == [];
  }

  /** Two elements out of order are swapped. */
  lemma OrderByPairSwaps<T, K>(x: T, y: T, key: T -> K, le: (K, K) -> bool)
    requires !le(key(x), key(y))
    ensures OrderBy([x, y], key, le) == [y, x]
  {
    assert [x, y][1..] == [y];
    OrderBySingle(y, key, le);
    assert Insert(x, [y], key, le) == [y] + Insert(x, [], key, le);
  }

  /** Three notes: A (oldest, unpinned), B (newest, unpinned), C (pinned); they are
      saved as C, B, A. */
  lemma NewestFirstExample()
    ensures var a, b, c := NoteValue("A", "", "", Transparent, 1, false),
                           NoteValue("B", "", "", Transparent, 3, false),
                           NoteValue("C", "", "", Transparent, 2, true);
      SortedNotes([a, b, c]) == [c, b, a]
  {
    var a, b, c := NoteValue("A", "", "", Transparent, 1, false),
                   NoteValue("B", "", "", Transparent, 3, false),
                   NoteValue("C", "", "", Transparent, 2, true);
    var newest := Direction(TickOrder, Descending);
    assert [a, b, c][1..] == [b, c] && [b, c][1..] == [c] && [c][1..] == [];
    assert Keep([c], NotePinned) == [c] && Drop([c], NotePinned) == [];
    assert Keep([b, c], NotePinned) == [c] && Drop([b, c], NotePinned) == [b];
    assert Keep([a, b, c], NotePinned) == [c] && Drop([a, b, c], NotePinned) == [a, b];
    OrderBySingle(c, NoteStamp, newest);
    assert newest(NoteStamp(a), NoteStamp(b)) == TickOrder(3, 1) == false;
    OrderByPairSwaps(a, b, NoteStamp, newest);
    assert SortedNotes([a, b, c]) == OrderBy([c], NoteStamp, newest) + OrderBy([a, b], NoteStamp, newest);
  }

  /** Sorting keeps every folder name, so folders that could be read back still can. */
  lemma SortedFoldersNamed(fs: seq<FolderValue>, compare: (string, string) -> bool)
    requires NamedFolders(fs)
    ensures NamedFolders(SortedFolders(fs, compare))
  {
    var a := Arrange(fs, FolderName, compare, Ascending, Some(FolderPinned));
    ArrangePermutes(fs, FolderName, compare, Ascending, Some(FolderPinned));
    forall i | 0 <= i < |a| ensures !IsNullOrWhiteSpace(Some(a[i].name)) {
      assert a[i] in multiset(fs);
      var j :| 0 <= j < |fs| && fs[j] == a[i];
    }
  }

  /** What SortProfiles produces from a clone that could be read back can be read
      back too: sorting neither loses nor blanks a name. */
  lemma SavedOrderNamed(ps: seq<ProfileValue>, compare: (string, string) -> bool)
    requires NamedProfiles(ps)
    ensures NamedProfiles(SavedOrder(ps, compare))
  {
    var a := Arrange(ps, ProfileName, NullFirst(compare), Ascending, None);
    var r := SavedOrder(ps, compare);
    ArrangePermutes(ps, ProfileName, NullFirst(compare), Ascending, None);
    forall i | 0 <= i < |r| ensures !IsNullOrWhiteSpace(r[i].name) && NamedFolders(r[i].folders) {
      assert a[i] in multiset(ps);
      var j :| 0 <= j < |ps| && ps[j] == a[i];
      SortedFoldersNamed(a[i].folders, compare);
    }
  }
}
