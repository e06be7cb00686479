/** MainWindow: the hierarchy operations behind the window's buttons, with every
    dialog answer passed in as a parameter. */
module Window {
  import opened Wrappers
  import opened Text
  import opened KeySort
  import opened Pinning
  import opened Hierarchy
  import opened Ordering
  import opened Files
  import opened Config
  import opened Storage
  import opened Collections

  /** The text DeleteProfile asks for before it deletes a profile with folders. */
  const ConfirmationText := "CONFIRM"
  const FirstProfileName := "Profile1"
  const FirstFolderName := "Folder1"
  const WelcomeName := "Welcome!"
  const WelcomeDescription := "An introduction to MarsNote"

  /** DispatcherTimer.Interval accepts at most Int32.MaxValue milliseconds. */
  const MaxTimerMilliseconds := 0x7FFF_FFFF
  const MillisecondsPerMinute := 60000

  /** The buttons of the dialog ChangeSaveFileLocation shows when the chosen folder
      already holds a save file. */
  datatype SaveFileChoice = OverwriteSaveFile | LoadSaveFile | CancelChoice

  datatype NewSaveFileLocationMode = Overwrite | Load

  function FolderSet(f: Folder?): set<Folder> {
    if f == null then {} else {f}
  }

  function ProfileSet(p: Profile?): set<Profile> {
    if p == null then {} else {p}
  }

  /** Some profile is called `name` (C# string equality; a null name matches none). */
  predicate ProfileNameUsed(ps: seq<Profile>, name: string)
    reads ps
  {
    exists i :: 0 <= i < |ps| && ps[i].name == Some(name)
  }

  predicate FolderNameUsed(fs: seq<Folder>, name: string)
    reads fs
  {
    exists i :: 0 <= i < |fs| && fs[i].name == name
  }

  /** No two profiles share a name: what adding and renaming profiles preserve. */
  predicate DistinctProfileNames(ps: seq<Profile>)
    reads ps
  {
    forall i, j :: 0 <= i < j < |ps| ==> ps[i].name != ps[j].name
  }

  /** No two folders of a profile share a name. */
  predicate DistinctFolderNames(fs: seq<Folder>)
    reads fs
  {
    forall i, j :: 0 <= i < j < |fs| ==> fs[i].name != fs[j].name
  }

  /** The index of the first profile whose name is `name`, or -1. */
  function FirstProfileNamed(ps: seq<Profile>, name: string): (i: int)
    reads ps
    ensures -1 <= i < |ps|
    ensures i >= 0 ==> ps[i].name == Some(name)
    ensures forall j :: 0 <= j < |ps| && (i < 0 || j < i) ==> ps[j].name != Some(name)
  {
    if ps == [] then -1
    else if ps[0].name == Some(name) then 0
    else
      var k := FirstProfileNamed(ps[1..], name);
      if k < 0 then -1 else k + 1
  }

  /** The index of the first folder whose name is `name`, or -1. */
  function FirstFolderNamed(fs: seq<Folder>, name: string): (i: int)
    reads fs
    ensures -1 <= i < |fs|
    ensures i >= 0 ==> fs[i].name == name
    ensures forall j :: 0 <= j < |fs| && (i < 0 || j < i) ==> fs[j].name != name
  {
    if fs == [] then -1
    else if fs[0].name == name then 0
    else
      var k := FirstFolderNamed(fs[1..], name);
      if k < 0 then -1 else k + 1
  }

  /** What FirstTimeLaunch creates, as saved: one profile holding one folder
      holding the pinned green introduction note. */
  function FirstRunProfiles(now: int, welcome: string): seq<ProfileValue> {
    [ProfileValue(Some(FirstProfileName),
       [FolderValue(FirstFolderName, [NoteValue(WelcomeName, WelcomeDescription, welcome, Green, now, true)], false)])]
  }

  /** ChangeSaveFileLocation's decision: with no save file in the chosen folder the
      open profiles overwrite; otherwise the dialog decides, and Cancel does nothing. */
  function RelocationMode(containsSaveFile: bool, choice: SaveFileChoice): (m: Option<NewSaveFileLocationMode>)
    ensures !containsSaveFile ==> m == Some(Overwrite)
    ensures m.None? <==> containsSaveFile && choice == CancelChoice
    ensures containsSaveFile && choice == LoadSaveFile ==> m == Some(Load)
  {
    if !containsSaveFile then Some(Overwrite)
    else match choice
      case OverwriteSaveFile => Some(Overwrite)
      case LoadSaveFile => Some(Load)
      case CancelChoice => None
  }

  /** Where SetNewSaveFileLocationFromUI saves the open profiles: in the new folder
      when overwriting, at the current save file when loading the new one. */
  function ProfilesTarget(mode: NewSaveFileLocationMode, newLocation: string, currentSaveFile: string): string {
    match mode
    case Overwrite => Combine(newLocation, DefaultSaveFileName)
    case Load => currentSaveFile
  }

  /** What the first launch saves reads back unchanged, and saving it again sorts
      nothing: one profile, one folder and one note are already in order. */
  lemma FirstRunSavedAsBuilt(now: int, welcome: string, compare: (string, string) -> bool)
    ensures var first := FirstRunProfiles(now, welcome);
      && NamedProfiles(first)
      && NormalProfiles(first) == first
      && SavedOrder(first, compare) == first
  {
    var note := NoteValue(WelcomeName, WelcomeDescription, welcome, Green, now, true);
    var folder := FolderValue(FirstFolderName, [note], false);
    var profile := ProfileValue(Some(FirstProfileName), [folder]);
    assert FirstRunProfiles(now, welcome) == [profile];
    assert !IsWhiteSpace(FirstProfileName[0]) && !IsWhiteSpace(FirstFolderName[0]);
    assert StorableColour(Green);
    assert NormalNotes([note]) == [note];
    assert NormalFolders([folder]) == [folder];
    assert NormalProfiles([profile]) == [profile];
    assert [note][1..] == [] && [folder][1..] == [];
    assert Keep([note], NotePinned) == [note] && Drop([note], NotePinned) == [];
    OrderBySingle(note, NoteStamp, Direction(TickOrder, Descending));
    assert SortedNotes([note]) == [note];
    assert Keep([folder], FolderPinned) == [] && Drop([folder], FolderPinned) == [folder];
    OrderBySingle(folder, FolderName, Direction(compare, Ascending));
    assert Arrange([folder], FolderName, compare, Ascending, Some(FolderPinned)) == [folder];
    assert WithSortedNotes(folder) == folder;
    assert SortedFolders([folder], compare) == [folder];
    OrderBySingle(profile, ProfileName, Direction(NullFirst(compare), Ascending));
    assert Arrange([profile], ProfileName, NullFirst(compare), Ascending, None) == [profile];
    assert WithSortedFolders(compare)(profile) == profile;
  }

  /** The objects FirstTimeLaunch builds: `new Profile("Profile1")` holding
      `new Folder("Folder1")` holding the introduction note, added through the
      collections. */
  method FirstRunProfile(now: int, welcome: string) returns (profile: Profile)
    ensures fresh(profile)
    ensures CaptureProfiles([profile]) == Some(FirstRunProfiles(now, welcome))
  {
    assert !IsWhiteSpace(FirstProfileName[0]) && !IsWhiteSpace(FirstFolderName[0]);
    profile := new Profile(FirstProfileName, None);
    var folder := new Folder(FirstFolderName, None, false);
    var note := new Note(Some(WelcomeName), Some(WelcomeDescription), Some(welcome), Some(Green), now, true);
    folder.notes := folder.notes + [note];
    profile.folders := profile.folders + [folder];
    FirstRunCaptured(profile, folder, note, now, welcome);
  }

  /** The first-run objects, once linked, clone to FirstRunProfiles. */
  lemma FirstRunCaptured(profile: Profile, folder: Folder, note: Note, now: int, welcome: string)
    requires profile.name == Some(FirstProfileName) && profile.folders == [folder]
    requires folder.name == FirstFolderName && folder.notes == [note] && !folder.pinned
    requires note.Value() == NoteValue(WelcomeName, WelcomeDescription, welcome, StoredColour(Some(Green)), now, true)
    ensures CaptureProfiles([profile]) == Some(FirstRunProfiles(now, welcome))
  {
    assert !IsWhiteSpace(FirstProfileName[0]) && !IsWhiteSpace(FirstFolderName[0]);
    assert StorableColour(Green);
    var welcomeNote := NoteValue(WelcomeName, WelcomeDescription, welcome, Green, now, true);
    assert CaptureNotes([note]) == [welcomeNote];
    CaptureFoldersSnoc([], folder);
    assert [] + [folder] == [folder];
    var folderValue := FolderValue(FirstFolderName, [welcomeNote], false);
    assert CaptureFolder(folder) == folderValue;
    assert CaptureFolders([]).value + [folderValue] == [folderValue];
    assert CaptureFolders(profile.folders) == Some([folderValue]);
    CaptureProfilesSnoc([], profile);
    assert [] + [profile] == [profile];
    var profileValue := ProfileValue(Some(FirstProfileName), [folderValue]);
    assert CaptureProfiles([]).value + [profileValue] == [profileValue];
    assert FirstRunProfiles(now, welcome) == [profileValue];
  }

  /** The first profile in `ps` called `name`: the foreach loop of UILoadState. */
  method FindProfile(ps: seq<Profile>, name: string) returns (i: int)
    ensures i == FirstProfileNamed(ps, name)
  {
    i := 0;
    while i < |ps|
      invariant 0 <= i <= |ps|
      invariant forall j :: 0 <= j < i ==> ps[j].name != Some(name)
    {
      if ps[i].name == Some(name) {
        FirstProfileNamedIs(ps, name, i);
        return;
      }
      i := i + 1;
    }
    FirstProfileNamedIs(ps, name, -1);
    i := -1;
  }

  /** The first folder in `fs` called `name`: the foreach loop of UILoadState. */
  method FindFolder(fs: seq<Folder>, name: string) returns (i: int)
    ensures i == FirstFolderNamed(fs, name)
  {
    i := 0;
    while i < |fs|
      invariant 0 <= i <= |fs|
      invariant forall j :: 0 <= j < i ==> fs[j].name != name
    {
      if fs[i].name == name {
        FirstFolderNamedIs(fs, name, i);
        return;
      }
      i := i + 1;
    }
    FirstFolderNamedIs(fs, name, -1);
    i := -1;
  }

  /** FirstProfileNamed is the only index with its two properties. */
  lemma FirstProfileNamedIs(ps: seq<Profile>, name: string, i: int)
    requires -1 <= i < |ps| && (i >= 0 ==> ps[i].name == Some(name))
    requires forall j :: 0 <= j < |ps| && (i < 0 || j < i) ==> ps[j].name != Some(name)
    ensures i == FirstProfileNamed(ps, name)
  {
  }

  lemma FirstFolderNamedIs(fs: seq<Folder>, name: string, i: int)
    requires -1 <= i < |fs| && (i >= 0 ==> fs[i].name == name)
    requires forall j :: 0 <= j < |fs| && (i < 0 || j < i) ==> fs[j].name != name
    ensures i == FirstFolderNamed(fs, name)
  {
  }

  /** Writing settings to the settings file always succeeds, and the next
      Settings.Load reads them back when the serialiser round-trips. */
  lemma SettingsWriteReadsBack(d: Disk, appData: string, v: SettingsValue, encode: SettingsValue -> string,
                               decode: SettingsDecoder)
    requires MinAutoSave <= v.autoSave <= MaxAutoSave
    requires decode(encode(v)) == Success(Some(JsonOf(v)))
    ensures var (r, e) := AfterWrite(d, Some(encode(v)), Some(SettingsFileLocation(appData)), false);
      r.Success? && Loaded(e.files, appData, decode) == v
  {
    var settingsPath, text := SettingsFileLocation(appData), encode(v);
    SettingsPathCreatable(appData);
    WriteReadsBack(d, Some(text), Some(settingsPath), false);
    var (r, e) := AfterWrite(d, Some(text), Some(settingsPath), false);
    assert r.Success? && settingsPath in e.files && e.files[settingsPath] == text;
    assert Decoded(e.files, appData, decode) == Some(JsonOf(v));
    ConstructJsonOf(v, DefaultSaveFileLocation(appData));
  }

  /** ChangeSaveFileLocation fails only when saving the profiles fails; when it
      succeeds, the next start reads the new settings back, so it opens the
      new save directory `path`. */
  lemma RelocationRecorded(d: Disk, clone: Option<seq<ProfileValue>>, target: string, path: string,
                           accentColour: Option<string>, autoSave: int, saveWindowPosition: Option<bool>, appData: string,
                           compare: (string, string) -> bool, encode: seq<ProfileValue> -> string,
                           encodeSettings: SettingsValue -> string, decode: SettingsDecoder)
    requires var v := UISettings(path, accentColour, autoSave, saveWindowPosition, appData);
      decode(encodeSettings(v)) == Success(Some(JsonOf(v)))
    ensures var v := UISettings(path, accentColour, autoSave, saveWindowPosition, appData);
      var (r, e) := RelocationOutcome(d, clone, target, encodeSettings(v), appData, compare, encode);
      && (r.Success? <==> SaveOutcome(d, clone, Some(target), compare, encode).0.Success?)
      && (r.Failure? ==> (r, e) == SaveOutcome(d, clone, Some(target), compare, encode))
      && (r.Success? ==> Loaded(e.files, appData, decode) == v && v.saveFileLocation == path)
  {
    var v := UISettings(path, accentColour, autoSave, saveWindowPosition, appData);
    var (saved, e) := SaveOutcome(d, clone, Some(target), compare, encode);
    if saved.Success? {
      SettingsWriteReadsBack(e, appData, v, encodeSettings, decode);
    }
  }

  /** GetUISettings: the settings Settings' JSON constructor builds from the values
      on screen. */
  function UISettings(saveFileLocationText: string, accentColour: Option<string>, autoSave: int,
                      saveWindowPosition: Option<bool>, appData: string): (v: SettingsValue)
    ensures v.saveFileLocation == saveFileLocationText
    ensures v.accentColour == accentColour.GetOr(DefaultAccentColour)
    ensures MinAutoSave <= v.autoSave <= MaxAutoSave
    ensures MinAutoSave <= autoSave <= MaxAutoSave ==> v.autoSave == autoSave
    ensures v.saveWindowPosition == saveWindowPosition.GetOr(true)
  {
    Construct(SettingsJson(Some(saveFileLocationText), accentColour, autoSave, saveWindowPosition), DefaultSaveFileLocation(appData))
  }

  /** SetNewSaveFileLocationFromUI on a disk: the profiles saved to `target`, then,
      unless that threw, the settings text written to the settings file. */
  function RelocationOutcome(d: Disk, clone: Option<seq<ProfileValue>>, target: string, settingsText: string, appData: string,
                             compare: (string, string) -> bool, encode: seq<ProfileValue> -> string): (Result<(), Exception>, Disk)
  {
    var (saved, e) := SaveOutcome(d, clone, Some(target), compare, encode);
    if saved.Failure? then (saved, e)
    else AfterWrite(e, Some(settingsText), Some(SettingsFileLocation(appData)), false)
  }

  /** A profile whose name no other profile has keeps the names distinct. */
  lemma DistinctAfterAppend(ps: seq<Profile>, p: Profile)
    requires DistinctProfileNames(ps) && p.name.Some? && !ProfileNameUsed(ps, p.name.value)
    ensures DistinctProfileNames(ps + [p])
  {
    var qs := ps + [p];
    forall i, j | 0 <= i < j < |qs| ensures qs[i].name != qs[j].name {
      if j == |ps| {
        assert qs[i] == ps[i];
      }
    }
  }

  /** A folder whose name no other folder of the profile has keeps the names distinct. */
  lemma DistinctFoldersAfterAppend(fs: seq<Folder>, f: Folder)
    requires DistinctFolderNames(fs) && !FolderNameUsed(fs, f.name)
    ensures DistinctFolderNames(fs + [f])
  {
    var gs := fs + [f];
    forall i, j | 0 <= i < j < |gs| ensures gs[i].name != gs[j].name {
      if j == |fs| {
        assert gs[i] == fs[i];
      }
    }
  }

  function FolderNames(fs: seq<Folder>): (names: seq<string>)
    reads fs
    ensures |names| == |fs| && forall i :: 0 <= i < |fs| ==> names[i] == fs[i].name
  {
    seq(|fs|, i requires 0 <= i < |fs| reads fs => fs[i].name)
  }

  /** Renaming one folder to a name that none of `fs` had keeps distinct names
      distinct; `names` are the names before the rename. */
  lemma RenameKeepsFoldersDistinct(fs: seq<Folder>, names: seq<string>, folder: Folder)
    requires |names| == |fs|
    requires forall i :: 0 <= i < |fs| && fs[i] != folder ==> fs[i].name == names[i]
    requires forall i :: 0 <= i < |fs| ==> names[i] != folder.name
    requires forall i, j :: 0 <= i < j < |fs| && fs[i] == fs[j] ==> names[i] == names[j]
    ensures (forall i, j :: 0 <= i < j < |fs| ==> names[i] != names[j]) ==> DistinctFolderNames(fs)
  {
    if forall i, j :: 0 <= i < j < |fs| ==> names[i] != names[j] {
      forall i, j | 0 <= i < j < |fs| ensures fs[i].name != fs[j].name {
        assert names[i] != names[j];
      }
    }
  }

  /** Deleting a profile keeps the remaining names distinct. */
  lemma DistinctAfterRemoval(ps: seq<Profile>, p: Profile)
    requires DistinctProfileNames(ps)
    ensures DistinctProfileNames(RemoveFirst(ps, p))
  {
    RemoveFirstAt(ps, p);
    if p in ps {
      var k := IndexOf(ps, p);
      var rest := RemoveFirst(ps, p);
      forall i, j | 0 <= i < j < |rest| ensures rest[i].name != rest[j].name {
        var i', j' := if i < k then i else i + 1, if j < k then j else j + 1;
        assert rest[i] == ps[i'] && rest[j] == ps[j'];
      }
    }
  }

  /** The foreach loop of RenameProfile looking for a profile called `name`. */
  method AnyProfileNamed(ps: seq<Profile>, name: string) returns (used: bool)
    ensures used == ProfileNameUsed(ps, name)
  {
    var i := 0;
    while i < |ps|
      invariant 0 <= i <= |ps|
      invariant forall j :: 0 <= j < i ==> ps[j].name != Some(name)
    {
      if ps[i].name == Some(name) {
        return true;
      }
      i := i + 1;
    }
    return false;
  }

  class MainWindow {
    const fileHelper: FileHelper
    /** The culture-sensitive string comparer that FileHelper.Sort uses for names. */
    const compare: (string, string) -> bool
    /** JsonHelper.Serialize for the profile list and for the settings. */
    const encode: seq<ProfileValue> -> string
    const encodeSettings: SettingsValue -> string
    /** LoadedProfiles. */
    var loadedProfiles: seq<Profile>
    /** comboBox_profiles.SelectedItem and listBox_folders.SelectedItem. */
    var selectedProfile: Profile?
    var selectedFolder: Folder?
    /** textBox_settings_saveFileLocation.Text. */
    var saveFileLocationText: string
    /** The auto-save DispatcherTimer: whether it runs, and its interval in
        milliseconds. */
    var timerRunning: bool
    var timerInterval: int

    constructor (fileHelper: FileHelper, compare: (string, string) -> bool, encode: seq<ProfileValue> -> string,
                 encodeSettings: SettingsValue -> string, profiles: seq<Profile>, saveFileLocationText: string)
      ensures this.fileHelper == fileHelper && this.compare == compare
      ensures this.encode == encode && this.encodeSettings == encodeSettings
      ensures loadedProfiles == profiles && selectedProfile == null && selectedFolder == null
      ensures this.saveFileLocationText == saveFileLocationText
      ensures !timerRunning && timerInterval == 0
    {
      this.fileHelper, this.compare, this.encode, this.encodeSettings := fileHelper, compare, encode, encodeSettings;
      loadedProfiles, selectedProfile, selectedFolder := profiles, null, null;
      this.saveFileLocationText := saveFileLocationText;
      timerRunning, timerInterval := false, 0;
    }

    /** comboBox_profiles.SelectedItem := p, which changes no profile. */
    method SelectProfile(p: Profile?)
      modifies this`selectedProfile
      ensures selectedProfile == p
      ensures CaptureProfiles(loadedProfiles) == old(CaptureProfiles(loadedProfiles))
    {
      assert forall o :: o in FoldersOf(loadedProfiles) ==> allocated(o);
      assert forall o :: o in NotesIn(loadedProfiles) ==> allocated(o);
      selectedProfile := p;
    }

    /** LoadedProfiles := ps, which changes no profile. */
    method SetLoaded(ps: seq<Profile>)
      modifies this`loadedProfiles
      ensures loadedProfiles == ps
      ensures CaptureProfiles(loadedProfiles) == old(CaptureProfiles(ps))
    {
      assert forall o :: o in FoldersOf(ps) ==> allocated(o);
      assert forall o :: o in NotesIn(ps) ==> allocated(o);
      loadedProfiles := ps;
    }

    /** `FileHelper.SaveProfiles(LoadedProfiles, path)`. */
    method SaveLoaded(path: string) returns (r: Result<(), Exception>)
      requires TotalPreorder(compare)
      modifies fileHelper.fs
      ensures (r, fileHelper.fs.Snapshot())
           == SaveOutcome(old(fileHelper.fs.Snapshot()), CaptureProfiles(loadedProfiles), Some(path), compare, encode)
      ensures CaptureProfiles(loadedProfiles) == old(CaptureProfiles(loadedProfiles))
    {
      r := fileHelper.SaveProfiles(Some(loadedProfiles), Some(path), compare, encode);
    }

    /** MoveNoteToAnotherFolder: the note is put first in the destination and its
        first occurrence taken out of the source. */
    method MoveNoteToAnotherFolder(note: Note?, sourceFolder: Folder?, destinationFolder: Folder?) returns (r: Result<(), Exception>)
      modifies FolderSet(sourceFolder)`notes, FolderSet(destinationFolder)`notes
      ensures note == null ==> r == Failure(ArgumentNullException("note"))
      ensures note != null && sourceFolder == null ==> r == Failure(ArgumentNullException("sourceFolder"))
      ensures note != null && sourceFolder != null && destinationFolder == null ==> r == Failure(ArgumentNullException("destinationFolder"))
      ensures note != null && sourceFolder != null && destinationFolder != null && sourceFolder != destinationFolder
              && note !in old(sourceFolder.notes) ==>
        r == Failure(ArgumentException("Source folder does not contain the note to be moved."))
      ensures r.Failure? || sourceFolder == destinationFolder ==>
        (sourceFolder != null ==> sourceFolder.notes == old(sourceFolder.notes))
        && (destinationFolder != null ==> destinationFolder.notes == old(destinationFolder.notes))
      ensures r.Success? && sourceFolder != destinationFolder ==>
        && note != null && sourceFolder != null && destinationFolder != null && note in old(sourceFolder.notes)
        && destinationFolder.notes == [note] + old(destinationFolder.notes)
        && sourceFolder.notes == RemoveFirst<Note>(old(sourceFolder.notes), note)
    {
      if note == null {
        return Failure(ArgumentNullException("note"));
      }
      if sourceFolder == null {
        return Failure(ArgumentNullException("sourceFolder"));
      }
      if destinationFolder == null {
        return Failure(ArgumentNullException("destinationFolder"));
      }
      if sourceFolder == destinationFolder {
        return Success(());
      }
      if note !in sourceFolder.notes {
        return Failure(ArgumentException("Source folder does not contain the note to be moved."));
      }
      destinationFolder.notes := [note] + destinationFolder.notes;
      sourceFolder.notes := RemoveFirst<Note>(sourceFolder.notes, note);
      return Success(());
    }

    /** MoveFolderToAnotherProfile: like moving a note, except that nothing moves
        when the destination already has a folder of the same name. */
    method MoveFolderToAnotherProfile(folder: Folder?, sourceProfile: Profile?, destinationProfile: Profile?) returns (r: Result<(), Exception>)
      modifies ProfileSet(sourceProfile)`folders, ProfileSet(destinationProfile)`folders
      ensures folder == null ==> r == Failure(ArgumentNullException("folder"))
      ensures folder != null && sourceProfile == null ==> r == Failure(ArgumentNullException("sourceProfile"))
      ensures folder != null && sourceProfile != null && destinationProfile == null ==> r == Failure(ArgumentNullException("destinationProfile"))
      ensures folder != null && sourceProfile != null && destinationProfile != null && sourceProfile != destinationProfile
              && folder !in old(sourceProfile.folders) ==>
        r == Failure(ArgumentException("Source profile does not contain the folder to be moved."))
      ensures r.Success? && sourceProfile != destinationProfile ==>
        folder != null && sourceProfile != null && destinationProfile != null && folder in old(sourceProfile.folders)
      ensures r.Failure? || sourceProfile == destinationProfile
              || (folder != null && destinationProfile != null && old(FolderNameUsed(destinationProfile.folders, folder.name))) ==>
        (sourceProfile != null ==> sourceProfile.folders == old(sourceProfile.folders))
        && (destinationProfile != null ==> destinationProfile.folders == old(destinationProfile.folders))
      ensures r.Success? && sourceProfile != destinationProfile && !old(FolderNameUsed(destinationProfile.folders, folder.name)) ==>
        destinationProfile.folders == [folder] + old(destinationProfile.folders)
        && sourceProfile.folders == RemoveFirst<Folder>(old(sourceProfile.folders), folder)
      ensures destinationProfile != null && old(DistinctFolderNames(destinationProfile.folders)) ==> DistinctFolderNames(destinationProfile.folders)
    {
      if folder == null {
        return Failure(ArgumentNullException("folder"));
      }
      if sourceProfile == null {
        return Failure(ArgumentNullException("sourceProfile"));
      }
      if destinationProfile == null {
        return Failure(ArgumentNullException("destinationProfile"));
      }
      if sourceProfile == destinationProfile {
        return Success(());
      }
      if folder !in sourceProfile.folders {
        return Failure(ArgumentException("Source profile does not contain the folder to be moved."));
      }
      var i := 0;
      while i < |destinationProfile.folders|
        invariant 0 <= i <= |destinationProfile.folders|
        invariant forall j :: 0 <= j < i ==> destinationProfile.folders[j].name != folder.name
      {
        if destinationProfile.folders[i].name == folder.name {
          return Success(());
        }
        i := i + 1;
      }
      destinationProfile.folders := [folder] + destinationProfile.folders;
      sourceProfile.folders := RemoveFirst<Folder>(sourceProfile.folders, folder);
      return Success(());
    }

    /** button_addProfile_Click with `typed` entered in the dialog (null for Cancel):
        a blank name or one already in use adds nothing; otherwise the new profile
        is appended, the profiles saved, and the new profile selected. */
    method AddProfile(typed: Option<string>) returns (r: Result<(), Exception>)
      requires TotalPreorder(compare)
      modifies this`loadedProfiles, this`selectedProfile, fileHelper.fs
      ensures IsNullOrWhiteSpace(typed) || old(ProfileNameUsed(loadedProfiles, typed.value)) ==>
        && r.Success? && loadedProfiles == old(loadedProfiles) && selectedProfile == old(selectedProfile)
        && fileHelper.fs.Snapshot() == old(fileHelper.fs.Snapshot())
      ensures !IsNullOrWhiteSpace(typed) && !old(ProfileNameUsed(loadedProfiles, typed.value)) ==>
        && |loadedProfiles| == |old(loadedProfiles)| + 1
        && loadedProfiles[..|old(loadedProfiles)|] == old(loadedProfiles)
        && var p := loadedProfiles[|old(loadedProfiles)|];
           && fresh(p) && p.name == typed && p.folders == []
           && (r, fileHelper.fs.Snapshot())
              == SaveOutcome(old(fileHelper.fs.Snapshot()), CaptureProfiles(loadedProfiles), Some(fileHelper.SaveFileLocation()), compare, encode)
           && selectedProfile == if r.Success? then p else old(selectedProfile)
      ensures old(DistinctProfileNames(loadedProfiles)) ==> DistinctProfileNames(loadedProfiles)
    {
      if IsNullOrWhiteSpace(typed) {
        return Success(());
      }
      if ProfileNameUsed(loadedProfiles, typed.value) {
        return Success(());
      }
      var created := Profile.Named(typed);
      var p := created.value;
      if DistinctProfileNames(loadedProfiles) {
        DistinctAfterAppend(loadedProfiles, p);
      }
      r := AppendProfile(p);
    }

    /** The tail of AddProfile: the new profile is appended, the profiles saved, and
        the new profile selected when the save succeeded. */
    method AppendProfile(p: Profile) returns (r: Result<(), Exception>)
      requires TotalPreorder(compare)
      modifies this`loadedProfiles, this`selectedProfile, fileHelper.fs
      ensures loadedProfiles == old(loadedProfiles) + [p]
      ensures (r, fileHelper.fs.Snapshot())
           == SaveOutcome(old(fileHelper.fs.Snapshot()), CaptureProfiles(loadedProfiles), Some(fileHelper.SaveFileLocation()), compare, encode)
      ensures selectedProfile == if r.Success? then p else old(selectedProfile)
    {
      loadedProfiles := loadedProfiles + [p];
      r := SaveLoaded(fileHelper.SaveFileLocation());
      if r.Failure? {
        return;
      }
      SelectProfile(p);
    }

    /** RenameProfile with `typed` entered in the dialog: refused for a blank name
        or a name that any profile has, the renamed one included. */
    method RenameProfile(profile: Profile?, typed: Option<string>) returns (r: Result<(), Exception>)
      requires TotalPreorder(compare)
      modifies ProfileSet(profile)`name, ProfileSet(profile)`raised, fileHelper.fs
      ensures profile == null || IsNullOrWhiteSpace(typed) || old(ProfileNameUsed(loadedProfiles, typed.value)) ==>
        && r.Success? && (profile != null ==> profile.name == old(profile.name))
        && fileHelper.fs.Snapshot() == old(fileHelper.fs.Snapshot())
      ensures profile != null && !IsNullOrWhiteSpace(typed) && !old(ProfileNameUsed(loadedProfiles, typed.value)) ==>
        && profile.name == typed
        && (r, fileHelper.fs.Snapshot())
           == SaveOutcome(old(fileHelper.fs.Snapshot()), CaptureProfiles(loadedProfiles), Some(fileHelper.SaveFileLocation()), compare, encode)
      ensures old(DistinctProfileNames(loadedProfiles)) ==> DistinctProfileNames(loadedProfiles)
    {
      if profile == null || IsNullOrWhiteSpace(typed) {
        return Success(());
      }
      var used := AnyProfileNamed(loadedProfiles, typed.value);
      if used {
        return Success(());
      }
      profile.SetName(typed);
      r := SaveLoaded(fileHelper.SaveFileLocation());
    }

    /** DeleteProfile: without confirmation the profile goes at once; a profile with
        folders goes only when exactly "CONFIRM" is typed (`typed`), an empty one when
        the dialog is confirmed (`affirmative`).  After the deletion the profiles are
        saved and the first one is selected. */
    method DeleteProfile(profile: Profile?, requiresConfirmation: bool, typed: Option<string>, affirmative: bool)
      returns (r: Result<(), Exception>)
      requires TotalPreorder(compare)
      modifies this`loadedProfiles, this`selectedProfile, fileHelper.fs
      ensures var deletes := profile != null && (!requiresConfirmation || (if |old(profile.folders)| > 0 then typed == Some(ConfirmationText) else affirmative));
        && (!deletes ==>
              && r.Success? && loadedProfiles == old(loadedProfiles) && selectedProfile == old(selectedProfile)
              && fileHelper.fs.Snapshot() == old(fileHelper.fs.Snapshot()))
        && (deletes ==>
              && loadedProfiles == RemoveFirst<Profile>(old(loadedProfiles), profile)
              && (r, fileHelper.fs.Snapshot())
                 == SaveOutcome(old(fileHelper.fs.Snapshot()), CaptureProfiles(loadedProfiles), Some(fileHelper.SaveFileLocation()), compare, encode)
              && selectedProfile == if r.Failure? then old(selectedProfile) else if loadedProfiles == [] then null else loadedProfiles[0])
      ensures old(DistinctProfileNames(loadedProfiles)) ==> DistinctProfileNames(loadedProfiles)
    {
      if profile == null {
        return Success(());
      }
      var deletes := true;
      if requiresConfirmation {
        if |profile.folders| > 0 {
          deletes := typed == Some(ConfirmationText);
        } else {
          deletes := affirmative;
        }
      }
      if !deletes {
        return Success(());
      }
      RemoveFirstSubset(loadedProfiles, profile);
      RemoveFirstAt(loadedProfiles, profile);
      if DistinctProfileNames(loadedProfiles) {
        DistinctAfterRemoval(loadedProfiles, profile);
      }
      loadedProfiles := RemoveFirst<Profile>(loadedProfiles, profile);
      r := SaveLoaded(fileHelper.SaveFileLocation());
      if r.Failure? {
        return;
      }
      SelectProfile(if loadedProfiles == [] then null else loadedProfiles[0]);
    }

    /** AddNote: a blank note stamped `now` goes to the top of the selected folder
        (when a folder is selected), then the profiles are saved. */
    method AddNote(now: int) returns (r: Result<(), Exception>)
      requires TotalPreorder(compare)
      modifies FolderSet(selectedFolder)`notes, fileHelper.fs
      ensures selectedFolder != null ==>
        && |selectedFolder.notes| == |old(selectedFolder.notes)| + 1
        && selectedFolder.notes[1..] == old(selectedFolder.notes)
        && fresh(selectedFolder.notes[0])
        && selectedFolder.notes[0].Value() == NoteValue("", "", "", Transparent, now, false)
      ensures (r, fileHelper.fs.Snapshot())
           == SaveOutcome(old(fileHelper.fs.Snapshot()), CaptureProfiles(loadedProfiles), Some(fileHelper.SaveFileLocation()), compare, encode)
    {
      var n := Note.Blank(now);
      if selectedFolder != null {
        selectedFolder.notes := [n] + selectedFolder.notes;
      }
      r := SaveLoaded(fileHelper.SaveFileLocation());
    }

    /** listBox_folders.SelectedItem := f, which changes no profile. */
    method SelectFolder(f: Folder?)
      modifies this`selectedFolder
      ensures selectedFolder == f
      ensures CaptureProfiles(loadedProfiles) == old(CaptureProfiles(loadedProfiles))
    {
      assert forall o :: o in FoldersOf(loadedProfiles) ==> allocated(o);
      assert forall o :: o in NotesIn(loadedProfiles) ==> allocated(o);
      selectedFolder := f;
    }

    /** NewFolder with `typed` entered in the dialog: nothing for a blank name; a
        NullReferenceException when no profile is selected; nothing when the selected
        profile already has a folder of that name; otherwise the new folder is
        appended to the selected profile, the profiles saved, and the folder selected. */
    method NewFolder(typed: Option<string>) returns (r: Result<(), Exception>)
      requires TotalPreorder(compare)
      modifies ProfileSet(selectedProfile)`folders, this`selectedFolder, fileHelper.fs
      ensures IsNullOrWhiteSpace(typed) ==>
        r.Success? && selectedFolder == old(selectedFolder) && fileHelper.fs.Snapshot() == old(fileHelper.fs.Snapshot())
      ensures !IsNullOrWhiteSpace(typed) && selectedProfile == null ==>
        r == Failure(NullReferenceException) && selectedFolder == old(selectedFolder)
        && fileHelper.fs.Snapshot() == old(fileHelper.fs.Snapshot())
      ensures !IsNullOrWhiteSpace(typed) && selectedProfile != null && old(FolderNameUsed(selectedProfile.folders, typed.value)) ==>
        && r.Success? && selectedProfile.folders == old(selectedProfile.folders) && selectedFolder == old(selectedFolder)
        && fileHelper.fs.Snapshot() == old(fileHelper.fs.Snapshot())
      ensures !IsNullOrWhiteSpace(typed) && selectedProfile != null && !old(FolderNameUsed(selectedProfile.folders, typed.value)) ==>
        && |selectedProfile.folders| == |old(selectedProfile.folders)| + 1
        && selectedProfile.folders[..|old(selectedProfile.folders)|] == old(selectedProfile.folders)
        && var f := selectedProfile.folders[|old(selectedProfile.folders)|];
           && fresh(f) && f.name == typed.value && f.notes == [] && !f.pinned
           && (r, fileHelper.fs.Snapshot())
              == SaveOutcome(old(fileHelper.fs.Snapshot()), CaptureProfiles(loadedProfiles), Some(fileHelper.SaveFileLocation()), compare, encode)
           && selectedFolder == if r.Success? then f else old(selectedFolder)
      ensures selectedProfile != null && old(DistinctFolderNames(selectedProfile.folders)) ==> DistinctFolderNames(selectedProfile.folders)
    {
      if IsNullOrWhiteSpace(typed) {
        return Success(());
      }
      var profile := selectedProfile;
      if profile == null {
        return Failure(NullReferenceException);
      }
      if FolderNameUsed(profile.folders, typed.value) {
        return Success(());
      }
      var created := Folder.Named(typed);
      var f := created.value;
      if DistinctFolderNames(profile.folders) {
        DistinctFoldersAfterAppend(profile.folders, f);
      }
      r := AppendFolder(profile, f);
    }

    /** The tail of NewFolder: the new folder is appended to the profile, the
        profiles saved, and the new folder selected when the save succeeded. */
    method AppendFolder(profile: Profile, f: Folder) returns (r: Result<(), Exception>)
      requires TotalPreorder(compare)
      modifies profile`folders, this`selectedFolder, fileHelper.fs
      ensures profile.folders == old(profile.folders) + [f]
      ensures (r, fileHelper.fs.Snapshot())
           == SaveOutcome(old(fileHelper.fs.Snapshot()), CaptureProfiles(loadedProfiles), Some(fileHelper.SaveFileLocation()), compare, encode)
      ensures selectedFolder == if r.Success? then f else old(selectedFolder)
    {
      profile.folders := profile.folders + [f];
      r := SaveLoaded(fileHelper.SaveFileLocation());
      if r.Failure? {
        return;
      }
      SelectFolder(f);
    }

    /** RenameFolder with `typed` entered in the dialog: nothing for a blank name; a
        NullReferenceException when no profile is selected; refused when a folder of
        the selected profile already has the name. */
    method RenameFolder(folder: Folder?, typed: Option<string>) returns (r: Result<(), Exception>)
      requires TotalPreorder(compare)
      modifies FolderSet(folder)`name, FolderSet(folder)`raised, fileHelper.fs
      ensures folder == null || IsNullOrWhiteSpace(typed) ==>
        r.Success? && fileHelper.fs.Snapshot() == old(fileHelper.fs.Snapshot())
      ensures folder != null && !IsNullOrWhiteSpace(typed) && selectedProfile == null ==>
        r == Failure(NullReferenceException) && folder.name == old(folder.name)
        && fileHelper.fs.Snapshot() == old(fileHelper.fs.Snapshot())
      ensures folder != null && !IsNullOrWhiteSpace(typed) && selectedProfile != null
              && old(FolderNameUsed(selectedProfile.folders, typed.value)) ==>
        r.Success? && folder.name == old(folder.name) && fileHelper.fs.Snapshot() == old(fileHelper.fs.Snapshot())
      ensures folder != null && !IsNullOrWhiteSpace(typed) && selectedProfile != null
              && !old(FolderNameUsed(selectedProfile.folders, typed.value)) ==>
        && folder.name == typed.value
        && (r, fileHelper.fs.Snapshot())
           == SaveOutcome(old(fileHelper.fs.Snapshot()), CaptureProfiles(loadedProfiles), Some(fileHelper.SaveFileLocation()), compare, encode)
      ensures selectedProfile != null && old(DistinctFolderNames(selectedProfile.folders)) ==> DistinctFolderNames(selectedProfile.folders)
    {
      if folder == null || IsNullOrWhiteSpace(typed) {
        return Success(());
      }
      var profile := selectedProfile;
      if profile == null {
        return Failure(NullReferenceException);
      }
      if FolderNameUsed(profile.folders, typed.value) {
        return Success(());
      }
      ghost var names := FolderNames(profile.folders);
      folder.SetName(typed);
      RenameKeepsFoldersDistinct(profile.folders, names, folder);
      r := SaveLoaded(fileHelper.SaveFileLocation());
    }

    /** FirstTimeLaunch: create the save file, then build one profile holding one
        folder holding the pinned green introduction note (the rich text `welcome`),
        save it and select the profile. */
    method FirstTimeLaunch(now: int, welcome: string) returns (r: Result<(), Exception>)
      requires TotalPreorder(compare)
      modifies this`loadedProfiles, this`selectedProfile, fileHelper.fs
      ensures var (c, d) := CreateOutcome(old(fileHelper.fs.Snapshot()), Some(fileHelper.SaveFileLocation()));
        if c.Failure? then
          && r == Failure(c.error) && fileHelper.fs.Snapshot() == d
          && loadedProfiles == old(loadedProfiles) && selectedProfile == old(selectedProfile)
        else
          && |loadedProfiles| == 1
          && CaptureProfiles(loadedProfiles) == Some(FirstRunProfiles(now, welcome))
          && (r, fileHelper.fs.Snapshot())
             == SaveOutcome(d, CaptureProfiles(loadedProfiles), Some(fileHelper.SaveFileLocation()), compare, encode)
          && selectedProfile == if r.Success? then loadedProfiles[0] else old(selectedProfile)
    {
      var created := CreateFileAndDirectory(fileHelper.fs, Some(fileHelper.SaveFileLocation()));
      if created.Failure? {
        return Failure(created.error);
      }
      r := LoadFirstRun(now, welcome);
    }

    /** The rest of FirstTimeLaunch once the save file exists: load the first-run
        profile, save it, and select it when the save succeeds. */
    method LoadFirstRun(now: int, welcome: string) returns (r: Result<(), Exception>)
      requires TotalPreorder(compare)
      modifies this`loadedProfiles, this`selectedProfile, fileHelper.fs
      ensures |loadedProfiles| == 1
      ensures CaptureProfiles(loadedProfiles) == Some(FirstRunProfiles(now, welcome))
      ensures (r, fileHelper.fs.Snapshot())
           == SaveOutcome(old(fileHelper.fs.Snapshot()), CaptureProfiles(loadedProfiles), Some(fileHelper.SaveFileLocation()), compare, encode)
      ensures selectedProfile == if r.Success? then loadedProfiles[0] else old(selectedProfile)
    {
      var profile := FirstRunProfile(now, welcome);
      SetLoaded([profile]);
      r := SaveLoaded(fileHelper.SaveFileLocation());
      if r.Failure? {
        return;
      }
      SelectProfile(loadedProfiles[0]);
    }

    /** UILoadState with the saved state's profile and folder names (both None for a
        null state): select the first profile with the saved name, then, within the
        selected profile, the first folder with the saved name. */
    method UILoadState(stateProfile: Option<string>, stateFolder: Option<string>)
      modifies this`selectedProfile, this`selectedFolder
      ensures stateProfile.None? ==> selectedProfile == old(selectedProfile)
      ensures stateProfile.Some? ==>
        var i := FirstProfileNamed(loadedProfiles, stateProfile.value);
        selectedProfile == if i < 0 then old(selectedProfile) else loadedProfiles[i]
      ensures stateProfile.Some? && stateFolder.Some? && selectedProfile != null ==>
        var k := FirstFolderNamed(selectedProfile.folders, stateFolder.value);
        selectedFolder == if k < 0 then old(selectedFolder) else selectedProfile.folders[k]
      ensures stateProfile.None? || stateFolder.None? || selectedProfile == null ==> selectedFolder == old(selectedFolder)
    {
      if stateProfile.None? {
        return;
      }
      SelectProfileNamed(stateProfile.value);
      if stateFolder.None? {
        return;
      }
      var profile := selectedProfile;
      if profile == null {
        return;
      }
      SelectFolderNamed(profile, stateFolder.value);
    }

    /** The profile loop of UILoadState: select the first profile called `name`. */
    method SelectProfileNamed(name: string)
      modifies this`selectedProfile
      ensures var i := FirstProfileNamed(loadedProfiles, name);
        selectedProfile == if i < 0 then old(selectedProfile) else loadedProfiles[i]
    {
      var i := FindProfile(loadedProfiles, name);
      if i >= 0 {
        selectedProfile := loadedProfiles[i];
      }
    }

    /** The folder loop of UILoadState: select the first folder of `profile` called
        `name`. */
    method SelectFolderNamed(profile: Profile, name: string)
      modifies this`selectedFolder
      ensures var k := FirstFolderNamed(profile.folders, name);
        selectedFolder == if k < 0 then old(selectedFolder) else profile.folders[k]
    {
      var k := FindFolder(profile.folders, name);
      if k >= 0 {
        selectedFolder := profile.folders[k];
      }
    }

    /** SetNewSaveFileLocationFromUI: the settings on screen are built (GetUISettings),
        the open profiles saved where `mode` says, and then the settings written. */
    method SetNewSaveFileLocationFromUI(mode: NewSaveFileLocationMode, accentColour: Option<string>, autoSave: int,
                                        saveWindowPosition: Option<bool>) returns (r: Result<(), Exception>)
      requires TotalPreorder(compare)
      modifies fileHelper.fs
      ensures (r, fileHelper.fs.Snapshot())
           == RelocationOutcome(old(fileHelper.fs.Snapshot()), CaptureProfiles(loadedProfiles),
                                ProfilesTarget(mode, saveFileLocationText, fileHelper.SaveFileLocation()),
                                encodeSettings(UISettings(saveFileLocationText, accentColour, autoSave, saveWindowPosition, fileHelper.appData)),
                                fileHelper.appData, compare, encode)
    {
      var uiSettings := new Settings(Some(saveFileLocationText), accentColour, autoSave, saveWindowPosition,
                                     DefaultSaveFileLocation(fileHelper.appData));
      ghost var value := uiSettings.Persisted();
      ghost var clone := CaptureProfiles(loadedProfiles);
      ghost var target := ProfilesTarget(mode, saveFileLocationText, fileHelper.SaveFileLocation());
      ghost var saved := SaveOutcome(fileHelper.fs.Snapshot(), clone, Some(target), compare, encode);
      r := SaveLoaded(ProfilesTarget(mode, uiSettings.saveFileLocation, fileHelper.SaveFileLocation()));
      assert (r, fileHelper.fs.Snapshot()) == saved;
      if r.Failure? {
        return;
      }
      assert uiSettings.Persisted() == value;
      r := SaveSettings(uiSettings);
      assert (r, fileHelper.fs.Snapshot()) == AfterWrite(saved.1, Some(encodeSettings(value)), Some(SettingsFileLocation(fileHelper.appData)), false);
    }

    /** `settings.Save()`, which changes no profile. */
    method SaveSettings(settings: Settings) returns (r: Result<(), Exception>)
      modifies fileHelper.fs
      ensures (r, fileHelper.fs.Snapshot())
           == AfterWrite(old(fileHelper.fs.Snapshot()), Some(encodeSettings(settings.Persisted())),
                         Some(SettingsFileLocation(fileHelper.appData)), false)
      ensures CaptureProfiles(loadedProfiles) == old(CaptureProfiles(loadedProfiles))
    {
      assert forall o :: o in FoldersOf(loadedProfiles) ==> allocated(o);
      assert forall o :: o in NotesIn(loadedProfiles) ==> allocated(o);
      r := Settings.Save(fileHelper.fs, fileHelper.appData, settings, encodeSettings);
    }

    /** ChangeSaveFileLocation with the folder the user picked, the answer to the
        dialog shown when that folder already holds a save file, and the other
        settings on screen.  Nothing happens for a null path, the current path, or
        Cancel; otherwise the text box takes the path and the new location is set. */
    method ChangeSaveFileLocation(path: Option<string>, choice: SaveFileChoice, accentColour: Option<string>,
                                  autoSave: int, saveWindowPosition: Option<bool>) returns (r: Result<(), Exception>)
      requires TotalPreorder(compare)
      modifies this`saveFileLocationText, fileHelper.fs
      ensures var mode := RelocationMode(old(fileHelper.FolderContainsSaveFile(path)), choice);
        if path.None? || path.value == old(saveFileLocationText) || mode.None? then
          r.Success? && saveFileLocationText == old(saveFileLocationText) && fileHelper.fs.Snapshot() == old(fileHelper.fs.Snapshot())
        else
          && saveFileLocationText == path.value
          && (r, fileHelper.fs.Snapshot())
             == RelocationOutcome(old(fileHelper.fs.Snapshot()), CaptureProfiles(loadedProfiles),
                                  ProfilesTarget(mode.value, path.value, fileHelper.SaveFileLocation()),
                                  encodeSettings(UISettings(path.value, accentColour, autoSave, saveWindowPosition, fileHelper.appData)),
                                  fileHelper.appData, compare, encode)
    {
      if path.None? || path.value == saveFileLocationText {
        return Success(());
      }
      var contains := fileHelper.FolderContainsSaveFile(path);
      var mode := RelocationMode(contains, choice);
      if mode.None? {
        return Success(());
      }
      saveFileLocationText := path.value;
      r := SetNewSaveFileLocationFromUI(mode.value, accentColour, autoSave, saveWindowPosition);
    }

    /** ChangeAutoSaveInterval: stop the timer, set the interval, and start it again
        unless the interval is 0.  The Interval setter rejects a negative interval or
        one above Int32.MaxValue milliseconds. */
    method ChangeAutoSaveInterval(interval: int) returns (r: Result<(), Exception>)
      modifies this`timerRunning, this`timerInterval
      ensures r.Success? <==> 0 <= interval && interval * MillisecondsPerMinute <= MaxTimerMilliseconds
      ensures r.Failure? ==> r.error == ArgumentOutOfRangeException("value") && !timerRunning && timerInterval == old(timerInterval)
      ensures r.Success? ==> timerInterval == interval * MillisecondsPerMinute && (timerRunning <==> interval != 0)
    {
      timerRunning := false;
      var milliseconds := interval * MillisecondsPerMinute;
      if milliseconds < 0 || milliseconds > MaxTimerMilliseconds {
        return Failure(ArgumentOutOfRangeException("value"));
      }
      timerInterval := milliseconds;
      if interval != 0 {
        timerRunning := true;
      }
      return Success(());
    }

    /** The auto-save tick: the open profiles saved to the save file. */
    method AutoSaveTick() returns (r: Result<(), Exception>)
      requires TotalPreorder(compare)
      modifies fileHelper.fs
      ensures (r, fileHelper.fs.Snapshot())
           == SaveOutcome(old(fileHelper.fs.Snapshot()), CaptureProfiles(loadedProfiles), Some(fileHelper.SaveFileLocation()), compare, encode)
    {
      r := SaveLoaded(fileHelper.SaveFileLocation());
    }
  }

  /** Every interval the settings can hold is accepted by the timer. */
  lemma SettingsIntervalAccepted(value: int)
    ensures 0 <= ClampAutoSave(value) && ClampAutoSave(value) * MillisecondsPerMinute <= MaxTimerMilliseconds
  {
  }
}
