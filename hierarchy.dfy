/** The note hierarchy: Note.cs, Folder.cs and Profile.cs, as classes whose
    setters update fields in place, and the values that serialisation (and so the
    deep clone of JsonHelper.DeepClone) turns them into. */
module Hierarchy {
  import opened Wrappers
  import opened Text

  newtype byte = x: int | 0 <= x < 256

  /** A WPF colour, alpha first. */
  datatype Colour = Argb(a: byte, r: byte, g: byte, b: byte)

  /** Brushes.Transparent: #00FFFFFF, the only colour a note may keep with alpha below 255. */
  const Transparent: Colour := Argb(0, 255, 255, 255)

  /** Brushes.Green: #FF008000. */
  const Green: Colour := Argb(255, 0, 128, 0)

  /** The colours a note can hold: the transparent sentinel or a fully opaque one. */
  predicate StorableColour(c: Colour) {
    c == Transparent || c.a == 255
  }

  /** What the Colour setter stores for the brush it is given (None is a null brush). */
  function StoredColour(value: Option<Colour>): (c: Colour)
    ensures StorableColour(c)
    ensures value.None? ==> c == Transparent
    ensures value.Some? ==> (c.r, c.g, c.b) == (value.value.r, value.value.g, value.value.b)
    ensures value.Some? && StorableColour(value.value) ==> c == value.value
    ensures value.Some? && value.value != Transparent ==> c.a == 255
  {
    match value
    case None => Transparent
    case Some(v) => if v != Transparent && v.a != 255 then Argb(255, v.r, v.g, v.b) else v
  }

  /** The PropertyChanged event names raised by the Note setters. */
  const NameChanged := "Name"
  const DescriptionChanged := "Description"
  const ContentChanged := "Content"
  const ColourChanged := "Colour"
  const LastModifiedChanged := "LastModified"
  const PinnedChanged := "Pinned"
  const NotesChanged := "Notes"
  const FoldersChanged := "Folders"

  /** The fields of a note as serialisation writes them, in their declared order. */
  datatype NoteValue = NoteValue(name: string, description: string, content: string,
                                 colour: Colour, lastModified: int, pinned: bool)

  datatype FolderValue = FolderValue(name: string, notes: seq<NoteValue>, pinned: bool)

  /** A profile's name may be null: its setter does not map null to "". */
  datatype ProfileValue = ProfileValue(name: Option<string>, folders: seq<FolderValue>)

  /** A single note.  Time is a tick count; `now` parameters stand for DateTime.Now. */
  class Note {
    var name: string
    var description: string
    var content: string
    var colour: Colour
    var lastModified: int
    var pinned: bool
    /** False while the constructor runs, so its own assignments do not stamp the time. */
    var readyForModification: bool
    /** The PropertyChanged events raised so far, by property name. */
    var raised: seq<string>

    function Value(): NoteValue
      reads this
    {
      NoteValue(name, description, content, colour, lastModified, pinned)
    }

    ghost predicate Valid()
      reads this
    {
      StorableColour(colour)
    }

    /** The JSON constructor: every field is assigned through its setter while the
        modification gate is still closed, then the gate opens. */
    constructor (name: Option<string>, description: Option<string>, content: Option<string>,
                 colour: Option<Colour>, lastModified: int, pinned: bool)
      ensures Valid() && readyForModification
      ensures Value() == NoteValue(OrEmpty(name), OrEmpty(description), OrEmpty(content),
                                   StoredColour(colour), lastModified, pinned)
      ensures raised == [NameChanged, DescriptionChanged, ContentChanged, ColourChanged,
                         LastModifiedChanged, PinnedChanged]
    {
      this.name, this.description, this.content := "", "", "";
      this.colour := Transparent;
      this.lastModified := 0;
      this.pinned := false;
      readyForModification := false;
      raised := [];
      new;
      // the gate is closed, so the clock reading passed here is never used
      SetName(name, lastModified);
      SetDescription(description, lastModified);
      assert raised == [NameChanged, DescriptionChanged];
      SetContent(content, lastModified);
      SetColour(colour, lastModified);
      assert raised == [NameChanged, DescriptionChanged, ContentChanged, ColourChanged];
      assert Value() == NoteValue(OrEmpty(name), OrEmpty(description), OrEmpty(content), StoredColour(colour), 0, false);
      SetLastModified(lastModified);
      SetPinned(pinned);
      readyForModification := true;
    }

    /** `new Note()`: empty texts, transparent, not pinned, last modified now. */
    static method Blank(now: int) returns (n: Note)
      ensures fresh(n) && n.Valid() && n.readyForModification
      ensures n.Value() == NoteValue("", "", "", Transparent, now, false)
    {
      n := new Note(None, None, None, None, now, false);
    }

    method NotifyPropertyChanged(propertyName: string)
      modifies this`raised
      ensures raised == old(raised) + [propertyName]
    {
      raised := raised + [propertyName];
    }

    /** Stamps the time, but only once construction has finished. */
    method Modified(now: int)
      modifies this`lastModified, this`raised
      ensures lastModified == if readyForModification then now else old(lastModified)
      ensures raised == old(raised) + if readyForModification then [LastModifiedChanged] else []
    {
      if readyForModification {
        SetLastModified(now);
      }
    }

    method SetName(value: Option<string>, now: int)
      modifies this`name, this`lastModified, this`raised
      ensures Value() == old(Value()).(name := OrEmpty(value),
        lastModified := if readyForModification then now else old(lastModified))
      ensures raised == old(raised) + [NameChanged] + if readyForModification then [LastModifiedChanged] else []
    {
      name := OrEmpty(value);
      NotifyPropertyChanged(NameChanged);
      Modified(now);
    }

    method SetDescription(value: Option<string>, now: int)
      modifies this`description, this`lastModified, this`raised
      ensures Value() == old(Value()).(description := OrEmpty(value),
        lastModified := if readyForModification then now else old(lastModified))
      ensures raised == old(raised) + [DescriptionChanged] + if readyForModification then [LastModifiedChanged] else []
    {
      description := OrEmpty(value);
      NotifyPropertyChanged(DescriptionChanged);
      Modified(now);
    }

    method SetContent(value: Option<string>, now: int)
      modifies this`content, this`lastModified, this`raised
      ensures Value() == old(Value()).(content := OrEmpty(value),
        lastModified := if readyForModification then now else old(lastModified))
      ensures raised == old(raised) + [ContentChanged] + if readyForModification then [LastModifiedChanged] else []
    {
      content := OrEmpty(value);
      NotifyPropertyChanged(ContentChanged);
      Modified(now);
    }

    /** A null brush becomes Transparent; any other colour except the exact
        Transparent one is made fully opaque, keeping its RGB. */
    method SetColour(value: Option<Colour>, now: int)
      modifies this`colour, this`lastModified, this`raised
      ensures Valid()
      ensures Value() == old(Value()).(colour := StoredColour(value),
        lastModified := if readyForModification then now else old(lastModified))
      ensures raised == old(raised) + [ColourChanged] + if readyForModification then [LastModifiedChanged] else []
    {
      if value.Some? {
        var scb := value.value;
        if scb != Transparent && scb.a != 255 {
          scb := Argb(255, scb.r, scb.g, scb.b);
        }
        colour := scb;
      } else {
        colour := Transparent;
      }
      NotifyPropertyChanged(ColourChanged);
      Modified(now);
    }

    /** Does not call Modified. */
    method SetLastModified(value: int)
      modifies this`lastModified, this`raised
      ensures Value() == old(Value()).(lastModified := value)
      ensures raised == old(raised) + [LastModifiedChanged]
    {
      lastModified := value;
      NotifyPropertyChanged(LastModifiedChanged);
    }

    /** Does not call Modified: pinning leaves the modification time alone. */
    method SetPinned(value: bool)
      modifies this`pinned, this`raised
      ensures Value() == old(Value()).(pinned := value)
      ensures raised == old(raised) + [PinnedChanged]
    {
      pinned := value;
      NotifyPropertyChanged(PinnedChanged);
    }
  }

  /** A named, pinnable collection of notes. */
  class Folder {
    var name: string
    var notes: seq<Note>
    var pinned: bool
    var raised: seq<string>

    /** The JSON constructor after its name check. */
    constructor (name: string, notes: Option<seq<Note>>, pinned: bool)
      requires !IsNullOrWhiteSpace(Some(name))
      ensures this.name == name && this.notes == notes.GetOr([]) && this.pinned == pinned
      ensures raised == [NameChanged, NotesChanged, PinnedChanged]
    {
      this.name, this.notes, this.pinned, raised := "", [], false, [];
      new;
      SetName(Some(name));
      SetNotes(notes.GetOr([]));
      SetPinned(pinned);
    }

    /** `new Folder(name, notes, pinned)`: throws for a null, empty or white-space name. */
    static method Create(name: Option<string>, notes: Option<seq<Note>>, pinned: bool) returns (r: Option<Folder>)
      ensures r.None? <==> IsNullOrWhiteSpace(name)
      ensures r.Some? ==>
        fresh(r.value) && r.value.name == name.value && r.value.notes == notes.GetOr([]) && r.value.pinned == pinned
    {
      if IsNullOrWhiteSpace(name) {
        return None;
      }
      var f := new Folder(name.value, notes, pinned);
      return Some(f);
    }

    /** `new Folder(name)`: no notes, not pinned. */
    static method Named(name: Option<string>) returns (r: Option<Folder>)
      ensures r.None? <==> IsNullOrWhiteSpace(name)
      ensures r.Some? ==> fresh(r.value) && r.value.name == name.value && r.value.notes == [] && !r.value.pinned
    {
      r := Create(name, Some([]), false);
    }

    method NotifyPropertyChanged(propertyName: string)
      modifies this`raised
      ensures raised == old(raised) + [propertyName]
    {
      raised := raised + [propertyName];
    }

    /** Stores "" for null; the name is not checked for blankness again. */
    method SetName(value: Option<string>)
      modifies this`name, this`raised
      ensures name == OrEmpty(value)
      ensures raised == old(raised) + [NameChanged]
    {
      name := OrEmpty(value);
      NotifyPropertyChanged(NameChanged);
    }

    method SetNotes(value: seq<Note>)
      modifies this`notes, this`raised
      ensures notes == value
      ensures raised == old(raised) + [NotesChanged]
    {
      notes := value;
      NotifyPropertyChanged(NotesChanged);
    }

    method SetPinned(value: bool)
      modifies this`pinned, this`raised
      ensures pinned == value
      ensures raised == old(raised) + [PinnedChanged]
    {
      pinned := value;
      NotifyPropertyChanged(PinnedChanged);
    }
  }

  /** A named collection of folders; profiles cannot be pinned. */
  class Profile {
    var name: Option<string>
    var folders: seq<Folder>
    var raised: seq<string>

    /** The JSON constructor after its name check. */
    constructor (name: string, folders: Option<seq<Folder>>)
      requires !IsNullOrWhiteSpace(Some(name))
      ensures this.name == Some(name) && this.folders == folders.GetOr([])
      ensures raised == [NameChanged, FoldersChanged]
    {
      this.name, this.folders, raised := None, [], [];
      new;
      SetName(Some(name));
      SetFolders(folders.GetOr([]));
    }

    /** `new Profile(name, folders)`: throws for a null, empty or white-space name. */
    static method Create(name: Option<string>, folders: Option<seq<Folder>>) returns (r: Option<Profile>)
      ensures r.None? <==> IsNullOrWhiteSpace(name)
      ensures r.Some? ==> fresh(r.value) && r.value.name == name && r.value.folders == folders.GetOr([])
    {
      if IsNullOrWhiteSpace(name) {
        return None;
      }
      var p := new Profile(name.value, folders);
      return Some(p);
    }

    /** `new Profile(name)`: no folders. */
    static method Named(name: Option<string>) returns (r: Option<Profile>)
      ensures r.None? <==> IsNullOrWhiteSpace(name)
      ensures r.Some? ==> fresh(r.value) && r.value.name == name && r.value.folders == []
    {
      r := Create(name, Some([]));
    }

    method NotifyPropertyChanged(propertyName: string)
      modifies this`raised
      ensures raised == old(raised) + [propertyName]
    {
      raised := raised + [propertyName];
    }

    /** Stores the value as given, null included. */
    method SetName(value: Option<string>)
      modifies this`name, this`raised
      ensures name == value
      ensures raised == old(raised) + [NameChanged]
    {
      name := value;
      NotifyPropertyChanged(NameChanged);
    }

    method SetFolders(value: seq<Folder>)
      modifies this`folders, this`raised
      ensures folders == value
      ensures raised == old(raised) + [FoldersChanged]
    {
      folders := value;
      NotifyPropertyChanged(FoldersChanged);
    }
  }

  /** The deep clone (serialise, then deserialise with the JSON constructors) of the
      note list of a folder. */
  function CaptureNotes(ns: seq<Note>): seq<NoteValue>
    reads ns
  {
    seq(|ns|, i requires 0 <= i < |ns| reads ns => ns[i].Value())
  }

  function NotesOf(fs: seq<Folder>): set<Note>
    reads fs
  {
    set f, n | f in fs && n in f.notes :: n
  }

  function FoldersOf(ps: seq<Profile>): set<Folder>
    reads ps
  {
    set p, f | p in ps && f in p.folders :: f
  }

  function NotesIn(ps: seq<Profile>): set<Note>
    reads ps, FoldersOf(ps)
  {
    set p, f, n | p in ps && f in p.folders && n in f.notes :: n
  }

  predicate SomeFolderUnnamed(fs: seq<Folder>)
    reads fs
  {
    exists i :: 0 <= i < |fs| && IsNullOrWhiteSpace(Some(fs[i].name))
  }

  function CaptureFolder(f: Folder): FolderValue
    reads f, f.notes
  {
    FolderValue(f.name, CaptureNotes(f.notes), f.pinned)
  }

  /** The clone of a folder list, None when a folder's name is blank (the folder's
      JSON constructor throws). */
  function CaptureFolders(fs: seq<Folder>): Option<seq<FolderValue>>
    reads fs, NotesOf(fs)
  {
    if fs == [] then Some([])
    else if IsNullOrWhiteSpace(Some(fs[0].name)) then None
    else
      assert forall n :: n in fs[0].notes ==> n in NotesOf(fs);
      var rest :- CaptureFolders(fs[1..]);
      Some([CaptureFolder(fs[0])] + rest)
  }

  /** The clone of a profile list, None when a profile's name is null or blank, or
      one of its folders' names is blank. */
  function CaptureProfiles(ps: seq<Profile>): (r: Option<seq<ProfileValue>>)
    reads ps, FoldersOf(ps), NotesIn(ps)
    ensures r.Some? ==> |r.value| == |ps|
  {
    if ps == [] then Some([])
    else if IsNullOrWhiteSpace(ps[0].name) then None
    else
      assert forall f :: f in ps[0].folders ==> f in FoldersOf(ps);
      assert NotesOf(ps[0].folders) <= NotesIn(ps);
      var folders :- CaptureFolders(ps[0].folders);
      var rest :- CaptureProfiles(ps[1..]);
      Some([ProfileValue(ps[0].name, folders)] + rest)
  }

  /** The folder clone fails exactly when some folder has a blank name. */
  lemma {:induction false} CaptureFoldersFails(fs: seq<Folder>)
    ensures CaptureFolders(fs).None? <==> SomeFolderUnnamed(fs)
    ensures CaptureFolders(fs).Some? ==> |CaptureFolders(fs).value| == |fs|
  {
    if fs != [] {
      CaptureFoldersFails(fs[1..]);
      if SomeFolderUnnamed(fs[1..]) {
        var i :| 0 <= i < |fs[1..]| && IsNullOrWhiteSpace(Some(fs[1..][i].name));
        assert fs[i + 1] == fs[1..][i];
      }
      if SomeFolderUnnamed(fs) && !IsNullOrWhiteSpace(Some(fs[0].name)) {
        var i :| 0 <= i < |fs| && IsNullOrWhiteSpace(Some(fs[i].name));
        assert fs[1..][i - 1] == fs[i];
      }
    }
  }

  /** Each folder's clone sits at its folder's index. */
  lemma {:induction false} CaptureFoldersAt(fs: seq<Folder>, i: nat)
    requires i < |fs| && CaptureFolders(fs).Some?
    ensures |CaptureFolders(fs).value| == |fs|
    ensures CaptureFolders(fs).value[i] == CaptureFolder(fs[i])
  {
    CaptureFoldersFails(fs);
    if i > 0 {
      CaptureFoldersAt(fs[1..], i - 1);
    }
  }

  lemma {:induction false} CaptureFoldersSnoc(fs: seq<Folder>, f: Folder)
    requires CaptureFolders(fs).Some? && !IsNullOrWhiteSpace(Some(f.name))
    ensures CaptureFolders(fs + [f]) == Some(CaptureFolders(fs).value + [CaptureFolder(f)])
  {
    if fs == [] {
      assert fs + [f] == [f] && [f][1..] == [];
      assert CaptureFolders([f][1..]) == Some([]);
      assert CaptureFolders([f]).value == [CaptureFolder(f)] == CaptureFolders(fs).value + [CaptureFolder(f)];
    } else {
      var rest := CaptureFolders(fs[1..]).value;
      assert CaptureFolders(fs).value == [CaptureFolder(fs[0])] + rest;
      assert (fs + [f])[0] == fs[0];
      assert (fs + [f])[1..] == fs[1..] + [f];
      CaptureFoldersSnoc(fs[1..], f);
      assert CaptureFolders(fs + [f]) == Some([CaptureFolder(fs[0])] + (rest + [CaptureFolder(f)]));
      assert [CaptureFolder(fs[0])] + (rest + [CaptureFolder(f)]) == CaptureFolders(fs).value + [CaptureFolder(f)];
    }
  }

  /** What a note value reads back as: the Colour setter normalises the brush. */
  function NormalNote(v: NoteValue): NoteValue {
    v.(colour := StoredColour(Some(v.colour)))
  }

  function NormalNotes(vs: seq<NoteValue>): seq<NoteValue> {
    seq(|vs|, i requires 0 <= i < |vs| => NormalNote(vs[i]))
  }

  function NormalFolder(v: FolderValue): FolderValue {
    v.(notes := NormalNotes(v.notes))
  }

  function NormalFolders(vs: seq<FolderValue>): seq<FolderValue> {
    seq(|vs|, i requires 0 <= i < |vs| => NormalFolder(vs[i]))
  }

  /** Every folder value can be read back. */
  predicate NamedFolders(vs: seq<FolderValue>) {
    forall i :: 0 <= i < |vs| ==> !IsNullOrWhiteSpace(Some(vs[i].name))
  }

  lemma NormalFoldersSnoc(vs: seq<FolderValue>, i: nat)
    requires i < |vs|
    ensures NamedFolders(vs[..i]) && !IsNullOrWhiteSpace(Some(vs[i].name)) ==> NamedFolders(vs[..i + 1])
    ensures NormalFolders(vs[..i + 1]) == NormalFolders(vs[..i]) + [NormalFolder(vs[i])]
  {
    assert vs[..i + 1] == vs[..i] + [vs[i]];
  }

  /** Deserialisation of a note list through the note's JSON constructor. */
  method RestoreNotes(vs: seq<NoteValue>) returns (ns: seq<Note>)
    ensures forall i :: 0 <= i < |ns| ==> fresh(ns[i]) && ns[i].Valid() && ns[i].readyForModification
    ensures CaptureNotes(ns) == NormalNotes(vs)
  {
    ns := [];
    var i := 0;
    while i < |vs|
      invariant 0 <= i <= |vs|
      invariant forall k :: 0 <= k < |ns| ==> fresh(ns[k]) && ns[k].Valid() && ns[k].readyForModification
      invariant CaptureNotes(ns) == NormalNotes(vs[..i])
    {
      var v := vs[i];
      ghost var before := CaptureNotes(ns);
      var n := new Note(Some(v.name), Some(v.description), Some(v.content), Some(v.colour), v.lastModified, v.pinned);
      assert CaptureNotes(ns) == before;
      assert CaptureNotes(ns + [n]) == CaptureNotes(ns) + [n.Value()];
      assert NormalNotes(vs[..i + 1]) == NormalNotes(vs[..i]) + [NormalNote(v)];
      ns := ns + [n];
      i := i + 1;
    }
    assert vs[..i] == vs;
  }

  /** Deserialisation of one folder: its notes, then the folder's JSON constructor. */
  method RestoreFolder(v: FolderValue) returns (f: Option<Folder>)
    ensures f.Some? <==> !IsNullOrWhiteSpace(Some(v.name))
    ensures f.Some? ==> fresh(f.value) && !IsNullOrWhiteSpace(Some(f.value.name)) && CaptureFolder(f.value) == NormalFolder(v)
  {
    var ns := RestoreNotes(v.notes);
    f := Folder.Create(Some(v.name), Some(ns), v.pinned);
  }

  /** Deserialisation of a folder list; fails when a folder's name is blank. */
  method RestoreFolders(vs: seq<FolderValue>) returns (r: Option<seq<Folder>>)
    ensures r.Some? <==> NamedFolders(vs)
    ensures r.Some? ==> forall i :: 0 <= i < |r.value| ==> fresh(r.value[i])
    ensures r.Some? ==> CaptureFolders(r.value) == Some(NormalFolders(vs))
  {
    var fs: seq<Folder> := [];
    var i := 0;
    assert NormalFolders(vs[..i]) == [];
    while i < |vs|
      invariant 0 <= i <= |vs|
      invariant NamedFolders(vs[..i])
      invariant forall k :: 0 <= k < |fs| ==> fresh(fs[k])
      invariant CaptureFolders(fs) == Some(NormalFolders(vs[..i]))
    {
      ghost var before := CaptureFolders(fs);
      assert forall n :: n in NotesOf(fs) ==> allocated(n);
      var f := RestoreFolder(vs[i]);
      assert CaptureFolders(fs) == before;
      if f.None? {
        assert !NamedFolders(vs) by { assert IsNullOrWhiteSpace(Some(vs[i].name)); }
        return None;
      }
      CaptureFoldersSnoc(fs, f.value);
      NormalFoldersSnoc(vs, i);
      fs := fs + [f.value];
      i := i + 1;
    }
    assert vs[..i] == vs;
    return Some(fs);
  }

  function NormalProfile(v: ProfileValue): ProfileValue {
    v.(folders := NormalFolders(v.folders))
  }

  function NormalProfiles(vs: seq<ProfileValue>): seq<ProfileValue> {
    seq(|vs|, i requires 0 <= i < |vs| => NormalProfile(vs[i]))
  }

  /** Every profile value, and every folder value in it, can be read back. */
  predicate NamedProfiles(vs: seq<ProfileValue>) {
    forall i :: 0 <= i < |vs| ==> !IsNullOrWhiteSpace(vs[i].name) && NamedFolders(vs[i].folders)
  }

  lemma NormalProfilesSnoc(vs: seq<ProfileValue>, i: nat)
    requires i < |vs|
    ensures NamedProfiles(vs[..i]) && !IsNullOrWhiteSpace(vs[i].name) && NamedFolders(vs[i].folders)
      ==> NamedProfiles(vs[..i + 1])
    ensures NormalProfiles(vs[..i + 1]) == NormalProfiles(vs[..i]) + [NormalProfile(vs[i])]
  {
    assert vs[..i + 1] == vs[..i] + [vs[i]];
  }

  lemma {:induction false} CaptureProfilesSnoc(ps: seq<Profile>, p: Profile)
    requires CaptureProfiles(ps).Some? && !IsNullOrWhiteSpace(p.name) && CaptureFolders(p.folders).Some?
    ensures CaptureProfiles(ps + [p]) == Some(CaptureProfiles(ps).value + [ProfileValue(p.name, CaptureFolders(p.folders).value)])
  {
    var v := ProfileValue(p.name, CaptureFolders(p.folders).value);
    if ps == [] {
      assert ps + [p] == [p] && [p][1..] == [];
      assert CaptureProfiles([p][1..]) == Some([]);
      assert CaptureProfiles([p]).value == [v] == CaptureProfiles(ps).value + [v];
    } else {
      var rest := CaptureProfiles(ps[1..]).value;
      var first := ProfileValue(ps[0].name, CaptureFolders(ps[0].folders).value);
      assert CaptureProfiles(ps).value == [first] + rest;
      assert (ps + [p])[0] == ps[0];
      assert (ps + [p])[1..] == ps[1..] + [p];
      CaptureProfilesSnoc(ps[1..], p);
      assert CaptureProfiles(ps + [p]) == Some([first] + (rest + [v]));
      assert [first] + (rest + [v]) == CaptureProfiles(ps).value + [v];
    }
  }

  /** A profile whose clone fails: its name, or one of its folders' names, is blank. */
  predicate SomeProfileUnnamed(ps: seq<Profile>)
    reads ps, FoldersOf(ps)
  {
    exists i :: 0 <= i < |ps| && (IsNullOrWhiteSpace(ps[i].name) || SomeNamelessFolder(ps, i))
  }

  predicate SomeNamelessFolder(ps: seq<Profile>, i: int)
    requires 0 <= i < |ps|
    reads ps, FoldersOf(ps)
  {
    assert forall f :: f in ps[i].folders ==> f in FoldersOf(ps);
    SomeFolderUnnamed(ps[i].folders)
  }

  /** The profile clone fails exactly when some profile or folder has a blank name. */
  lemma {:induction false} CaptureProfilesFails(ps: seq<Profile>)
    ensures CaptureProfiles(ps).None? <==> SomeProfileUnnamed(ps)
    ensures CaptureProfiles(ps).Some? ==> |CaptureProfiles(ps).value| == |ps|
  {
    if ps != [] {
      CaptureProfilesFails(ps[1..]);
      CaptureFoldersFails(ps[0].folders);
      if SomeProfileUnnamed(ps[1..]) {
        var i :| 0 <= i < |ps[1..]| && (IsNullOrWhiteSpace(ps[1..][i].name) || SomeNamelessFolder(ps[1..], i));
        assert ps[i + 1] == ps[1..][i];
      }
      if SomeProfileUnnamed(ps) && !IsNullOrWhiteSpace(ps[0].name) && !SomeFolderUnnamed(ps[0].folders) {
        var i :| 0 <= i < |ps| && (IsNullOrWhiteSpace(ps[i].name) || SomeNamelessFolder(ps, i));
        assert ps[1..][i - 1] == ps[i];
      }
    }
  }

  /** A clone that succeeded holds only names that read back. */
  lemma CaptureFoldersNamed(fs: seq<Folder>)
    requires CaptureFolders(fs).Some?
    ensures NamedFolders(CaptureFolders(fs).value)
  {
    CaptureFoldersFails(fs);
    forall i | 0 <= i < |fs| ensures !IsNullOrWhiteSpace(Some(CaptureFolders(fs).value[i].name)) {
      CaptureFoldersAt(fs, i);
    }
  }

  lemma {:induction false} CaptureProfilesNamed(ps: seq<Profile>)
    requires CaptureProfiles(ps).Some?
    ensures NamedProfiles(CaptureProfiles(ps).value)
  {
    if ps != [] {
      assert forall f :: f in ps[0].folders ==> f in FoldersOf(ps);
      assert NotesOf(ps[0].folders) <= NotesIn(ps);
      CaptureFoldersNamed(ps[0].folders);
      CaptureProfilesNamed(ps[1..]);
    }
  }

  /** Deserialisation of one profile: its folders, then the profile's JSON
      constructor. */
  method RestoreProfile(v: ProfileValue) returns (p: Option<Profile>)
    ensures p.Some? <==> !IsNullOrWhiteSpace(v.name) && NamedFolders(v.folders)
    ensures p.Some? ==>
      && fresh(p.value) && !IsNullOrWhiteSpace(p.value.name)
      && CaptureFolders(p.value.folders).Some?
      && ProfileValue(p.value.name, CaptureFolders(p.value.folders).value) == NormalProfile(v)
  {
    var fs := RestoreFolders(v.folders);
    if fs.None? {
      return None;
    }
    assert forall o :: o in NotesOf(fs.value) ==> allocated(o);
    p := Profile.Create(v.name, Some(fs.value));
  }

  /** Deserialisation of a profile list; fails when a profile's name is null or
      blank or one of its folders' names is blank. */
  method RestoreProfiles(vs: seq<ProfileValue>) returns (r: Option<seq<Profile>>)
    ensures r.Some? <==> NamedProfiles(vs)
    ensures r.Some? ==> forall i :: 0 <= i < |r.value| ==> fresh(r.value[i])
    ensures r.Some? ==> CaptureProfiles(r.value) == Some(NormalProfiles(vs))
  {
    var ps: seq<Profile> := [];
    var i := 0;
    assert NormalProfiles(vs[..i]) == [];
    while i < |vs|
      invariant 0 <= i <= |vs|
      invariant NamedProfiles(vs[..i])
      invariant forall k :: 0 <= k < |ps| ==> fresh(ps[k])
      invariant CaptureProfiles(ps) == Some(NormalProfiles(vs[..i]))
    {
      var next := RestoreNext(ps, vs[i]);
      if next.None? {
        return None;
      }
      NormalProfilesSnoc(vs, i);
      ps := next.value;
      i := i + 1;
    }
    assert vs[..i] == vs;
    return Some(ps);
  }

  /** One step of RestoreProfiles: the next profile rebuilt and appended. */
  method RestoreNext(ps: seq<Profile>, v: ProfileValue) returns (r: Option<seq<Profile>>)
    requires CaptureProfiles(ps).Some?
    ensures r.Some? <==> !IsNullOrWhiteSpace(v.name) && NamedFolders(v.folders)
    ensures r.Some? ==> |r.value| == |ps| + 1 && r.value[..|ps|] == ps && fresh(r.value[|ps|])
    ensures r.Some? ==> CaptureProfiles(r.value) == Some(old(CaptureProfiles(ps)).value + [NormalProfile(v)])
  {
    ghost var before := CaptureProfiles(ps);
    assert forall o :: o in FoldersOf(ps) ==> allocated(o);
    assert forall o :: o in NotesIn(ps) ==> allocated(o);
    var p := RestoreProfile(v);
    assert CaptureProfiles(ps) == before;
    if p.None? {
      return None;
    }
    CaptureProfilesSnoc(ps, p.value);
    r := Some(ps + [p.value]);
    assert r.value[..|ps|] == ps;
  }
}
