/** FileHelper's state and the profile save file: the save directory, loading it
    from the settings, and saving and loading the profiles. */
module Storage {
  import opened Wrappers
  import opened Text
  import opened KeySort
  import opened Hierarchy
  import opened Ordering
  import opened Files
  import opened Config

  /** LoadSaveFileLocation's choice: the stored location when it is not blank and
      exists, else the default directory; the SaveFileLocation setter ignores a
      directory that does not exist, which leaves `current`. */
  function ChosenLocation(dirs: set<string>, stored: string, default: string, current: string): (r: string)
    ensures current in dirs || default in dirs ==> r in dirs
    ensures !IsNullOrWhiteSpace(Some(stored)) && stored in dirs ==> r == stored
    ensures (IsNullOrWhiteSpace(Some(stored)) || stored !in dirs) && default in dirs ==> r == default
    ensures r == stored || r == default || r == current
  {
    if !IsNullOrWhiteSpace(Some(stored)) && stored in dirs then stored
    else if default in dirs then default
    else current
  }

  /** The outcome of SaveProfiles on a disk, given the deep clone of the profiles:
      the exception of a clone that failed, or the write of the sorted clone. */
  function SaveOutcome(d: Disk, clone: Option<seq<ProfileValue>>, path: Option<string>,
                       compare: (string, string) -> bool, encode: seq<ProfileValue> -> string): (r: (Result<(), Exception>, Disk))
    ensures clone.None? ==> r.0 == Failure(ArgumentNullException("name"))
    ensures r.0.Failure? ==> r.1 == d
    ensures r.0.Success? ==>
      && clone.Some? && path.Some? && path.value in r.1.files
      && r.1.files[path.value] == encode(SavedOrder(clone.value, compare))
    ensures d.dirs <= r.1.dirs
  {
    match clone
    case None => (Failure(ArgumentNullException("name")), d)
    case Some(c) =>
      WriteReadsBack(d, Some(encode(SavedOrder(c, compare))), path, false);
      AfterWrite(d, Some(encode(SavedOrder(c, compare))), path, false)
  }

  /** The JSON deserialiser for the save file: the profile list, or None for a JSON
      null, or the exception it throws. */
  type ProfilesDecoder = string -> Result<Option<seq<ProfileValue>>, Exception>

  class FileHelper {
    const fs: FileSystem
    /** Environment.SpecialFolder.ApplicationData. */
    const appData: string
    /** The directory of the save file (the static `_saveFileLocation`). */
    var saveFileLocation: string

    /** The save directory exists. */
    ghost predicate Valid()
      reads this, fs
    {
      saveFileLocation in fs.dirs
    }

    /** The static constructor: create the MarsNote directory when it is missing,
        then load the save directory from the settings. */
    constructor (fs: FileSystem, appData: string, decode: SettingsDecoder, inStartup: bool)
      modifies fs
      ensures this.fs == fs && this.appData == appData && Valid()
      ensures fs.files == old(fs.files)
      ensures fs.dirs == old(fs.dirs) + if MarsNoteDirectory(appData) in old(fs.dirs) then {} else Ancestors(MarsNoteDirectory(appData))
      ensures saveFileLocation ==
        if !IsNullOrWhiteSpace(Some(Loaded(fs.files, appData, decode).saveFileLocation))
           && Loaded(fs.files, appData, decode).saveFileLocation in fs.dirs
        then Loaded(fs.files, appData, decode).saveFileLocation
        else DefaultSaveFileLocation(appData)
    {
      this.fs, this.appData, saveFileLocation := fs, appData, MarsNoteDirectory(appData);
      new;
      if !fs.DirectoryExists(Some(MarsNoteDirectory(appData))) {
        fs.CreateDirectory(MarsNoteDirectory(appData));
        MarsNoteRoot(appData, "");
        assert MarsNoteDirectory(appData) + "" == MarsNoteDirectory(appData);
        AncestorsHoldPath(MarsNoteDirectory(appData));
      }
      LoadSaveFileLocation(decode, inStartup);
    }

    /** The SaveFileLocation getter: the save directory combined with
        DefaultSaveFileName. */
    function SaveFileLocation(): string
      reads this
    {
      Combine(saveFileLocation, DefaultSaveFileName)
    }

    /** Wherever the save directory is, the save file is called DefaultSaveFileName. */
    lemma SaveFileNamed()
      ensures GetFileName(SaveFileLocation()) == DefaultSaveFileName
    {
      FileNameOfCombine(saveFileLocation, DefaultSaveFileName);
    }

    /** The SaveFileLocation setter: a directory that does not exist is ignored. */
    method SetSaveFileLocation(value: Option<string>)
      modifies this`saveFileLocation
      ensures saveFileLocation == if fs.DirectoryExists(value) then value.value else old(saveFileLocation)
      ensures old(Valid()) ==> Valid()
    {
      if fs.DirectoryExists(value) {
        saveFileLocation := value.value;
      }
    }

    /** LoadSaveFileLocation: the location in the settings when it exists, else the
        default directory. */
    method LoadSaveFileLocation(decode: SettingsDecoder, inStartup: bool)
      modifies this`saveFileLocation
      ensures saveFileLocation == ChosenLocation(fs.dirs, Loaded(fs.files, appData, decode).saveFileLocation,
                                                 DefaultSaveFileLocation(appData), old(saveFileLocation))
    {
      var s := Settings.Load(fs, appData, decode, inStartup);
      if !IsNullOrWhiteSpace(Some(s.saveFileLocation)) && fs.DirectoryExists(Some(s.saveFileLocation)) {
        SetSaveFileLocation(Some(s.saveFileLocation));
      } else {
        SetSaveFileLocation(Some(DefaultSaveFileLocation(appData)));
      }
    }

    /** FolderContainsSaveFile: the directory exists and holds a file named like the
        save file, which is always "mn-save.json". */
    predicate FolderContainsSaveFile(path: Option<string>): (r: bool)
      reads this, fs
      ensures r <==> fs.DirectoryExists(path) && Combine(path.value, DefaultSaveFileName) in fs.files
    {
      SaveFileNamed();
      fs.DirectoryExists(path) && fs.FileExists(Some(Combine(path.value, GetFileName(SaveFileLocation()))))
    }

    /** SaveProfiles: the deep clone of the profiles (an empty list for null), sorted
        by SortProfiles, serialised by `encode` and written to `path`.  The clone
        throws when a profile or folder name is blank; the live profiles are not
        changed. */
    method SaveProfiles(profiles: Option<seq<Profile>>, path: Option<string>, compare: (string, string) -> bool,
                        encode: seq<ProfileValue> -> string) returns (r: Result<(), Exception>)
      requires TotalPreorder(compare)
      modifies fs
      ensures var ps := profiles.GetOr([]); CaptureProfiles(ps) == old(CaptureProfiles(ps))
      ensures (r, fs.Snapshot()) == SaveOutcome(old(fs.Snapshot()), CaptureProfiles(profiles.GetOr([])), path, compare, encode)
    {
      var ps := if profiles.None? then [] else profiles.value;
      var clone := CaptureProfiles(ps);
      if clone.None? {
        return Failure(ArgumentNullException("name"));
      }
      assert forall o :: o in FoldersOf(ps) ==> allocated(o);
      assert forall o :: o in NotesIn(ps) ==> allocated(o);
      var sorted := Ordering.SortProfiles(clone.value, compare);
      r := Write(fs, Some(encode(sorted)), path, false);
    }

    /** LoadProfiles: the file decoded by `decode`, an empty list for a JSON null,
        then rebuilt through the JSON constructors, which reject a blank name. */
    method LoadProfiles(path: Option<string>, decode: ProfilesDecoder) returns (r: Result<seq<Profile>, Exception>)
      ensures !fs.FileExists(path) ==> r == Failure(ArgumentException("Json path does not exist."))
      ensures fs.FileExists(path) ==> match decode(fs.files[path.value])
        case Failure(e) => r == Failure(e)
        case Success(None) => r == Success([])
        case Success(Some(vs)) =>
          && (r.Success? <==> NamedProfiles(vs))
          && (r.Failure? ==> r.error == ArgumentNullException("name"))
          && (r.Success? ==> (forall i :: 0 <= i < |r.value| ==> fresh(r.value[i])) && CaptureProfiles(r.value) == Some(NormalProfiles(vs)))
    {
      if !fs.FileExists(path) {
        return Failure(ArgumentException("Json path does not exist."));
      }
      var decoded := decode(fs.ReadAllText(path.value));
      if decoded.Failure? {
        return Failure(decoded.error);
      }
      if decoded.value.None? {
        return Success([]);
      }
      var restored := RestoreProfiles(decoded.value.value);
      if restored.None? {
        return Failure(ArgumentNullException("name"));
      }
      return Success(restored.value);
    }
  }

  /** A clone that succeeded is saved in a form that every JSON constructor accepts,
      so a save file written by SaveProfiles loads back when the serialiser reads
      back what it writes. */
  lemma SavedProfilesLoad(ps: seq<Profile>, compare: (string, string) -> bool)
    requires CaptureProfiles(ps).Some?
    ensures NamedProfiles(SavedOrder(CaptureProfiles(ps).value, compare))
  {
    CaptureProfilesNamed(ps);
    SavedOrderNamed(CaptureProfiles(ps).value, compare);
  }
}
