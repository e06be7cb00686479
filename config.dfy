/** Settings.cs: the user's settings, normalised by their setters, and their
    persistence in the settings file. */
module Config {
  import opened Wrappers
  import opened Text
  import opened Files

  const DefaultAccentColour := "Red"
  const MinAutoSave := 0
  const MaxAutoSave := 60

  /** The AutoSave setter: the interval in minutes, limited to [0, 60]. */
  function ClampAutoSave(value: int): (r: int)
    ensures MinAutoSave <= r <= MaxAutoSave
    ensures MinAutoSave <= value <= MaxAutoSave ==> r == value
    ensures value < MinAutoSave ==> r == MinAutoSave
    ensures value > MaxAutoSave ==> r == MaxAutoSave
  {
    if value < 0 then 0 else if value > 60 then 60 else value
  }

  /** What serialisation writes: every property but StartOnWindowsStartup. */
  datatype SettingsValue = SettingsValue(saveFileLocation: string, accentColour: string,
                                         autoSave: int, saveWindowPosition: bool)

  /** The JSON constructor's arguments as read from the file; any may be null except
      the interval. */
  datatype SettingsJson = SettingsJson(saveFileLocation: Option<string>, accentColour: Option<string>,
                                       autoSave: int, saveWindowPosition: Option<bool>)

  /** The JSON deserialiser for the settings file: the constructor's arguments, or
      None for a JSON null, or the exception it throws. */
  type SettingsDecoder = string -> Result<Option<SettingsJson>, Exception>

  function JsonOf(v: SettingsValue): SettingsJson {
    SettingsJson(Some(v.saveFileLocation), Some(v.accentColour), v.autoSave, Some(v.saveWindowPosition))
  }

  /** The value the JSON constructor builds from its arguments. */
  function Construct(j: SettingsJson, defaultSaveFileLocation: string): SettingsValue {
    SettingsValue(j.saveFileLocation.GetOr(defaultSaveFileLocation), j.accentColour.GetOr(DefaultAccentColour),
                  ClampAutoSave(j.autoSave), j.saveWindowPosition.GetOr(true))
  }

  /** BlankSettings: `new Settings(null, null, 0, null)`. */
  function Blank(defaultSaveFileLocation: string): (v: SettingsValue)
    ensures v == SettingsValue(defaultSaveFileLocation, DefaultAccentColour, 0, true)
  {
    Construct(SettingsJson(None, None, 0, None), defaultSaveFileLocation)
  }

  /** Settings that were saved read back unchanged. */
  lemma ConstructJsonOf(v: SettingsValue, defaultSaveFileLocation: string)
    requires MinAutoSave <= v.autoSave <= MaxAutoSave
    ensures Construct(JsonOf(v), defaultSaveFileLocation) == v
  {
  }

  /** The settings file's contents decoded, or None for whatever makes Settings.Load
      fall back: a missing file, text that does not decode, or a JSON null. */
  function Decoded(files: map<string, string>, appData: string,
                   decode: SettingsDecoder): Option<SettingsJson>
  {
    var path := SettingsFileLocation(appData);
    if path !in files then None
    else match decode(files[path])
      case Success(Some(j)) => Some(j)
      case _ => None
  }

  /** The settings Settings.Load returns, apart from StartOnWindowsStartup. */
  function Loaded(files: map<string, string>, appData: string,
                  decode: SettingsDecoder): SettingsValue
  {
    match Decoded(files, appData, decode)
    case None => Blank(DefaultSaveFileLocation(appData))
    case Some(j) => Construct(j, DefaultSaveFileLocation(appData))
  }

  class Settings {
    var saveFileLocation: string
    var accentColour: string
    var autoSave: int
    var saveWindowPosition: bool
    /** Not serialised: it mirrors the registry's startup entry. */
    var startOnWindowsStartup: bool
    /** FileHelper.DefaultSaveFileLocation, used for a null save location. */
    const defaultSaveFileLocation: string

    ghost predicate Valid()
      reads this
    {
      MinAutoSave <= autoSave <= MaxAutoSave
    }

    function Persisted(): SettingsValue
      reads this
    {
      SettingsValue(saveFileLocation, accentColour, autoSave, saveWindowPosition)
    }

    /** The JSON constructor. */
    constructor (saveFileLocation: Option<string>, accentColour: Option<string>, autoSave: int,
                 saveWindowPosition: Option<bool>, defaultSaveFileLocation: string)
      ensures Valid() && !startOnWindowsStartup
      ensures this.defaultSaveFileLocation == defaultSaveFileLocation
      ensures Persisted() == Construct(SettingsJson(saveFileLocation, accentColour, autoSave, saveWindowPosition), defaultSaveFileLocation)
    {
      this.defaultSaveFileLocation := defaultSaveFileLocation;
      this.saveFileLocation, this.accentColour, this.autoSave := "", "", 0;
      this.saveWindowPosition, startOnWindowsStartup := false, false;
      new;
      SetSaveFileLocation(saveFileLocation);
      SetAccentColour(accentColour);
      SetAutoSave(autoSave);
      SetSaveWindowPosition(saveWindowPosition.GetOr(true));
    }

    /** BlankSettings: the default location, "Red", no auto-save, save the window position. */
    static method BlankSettings(defaultSaveFileLocation: string) returns (s: Settings)
      ensures fresh(s) && s.Valid() && !s.startOnWindowsStartup
      ensures s.defaultSaveFileLocation == defaultSaveFileLocation
      ensures s.Persisted() == Blank(defaultSaveFileLocation)
    {
      s := new Settings(None, None, 0, None, defaultSaveFileLocation);
    }

    method SetSaveFileLocation(value: Option<string>)
      modifies this`saveFileLocation
      ensures saveFileLocation == value.GetOr(defaultSaveFileLocation)
    {
      saveFileLocation := value.GetOr(defaultSaveFileLocation);
    }

    method SetAccentColour(value: Option<string>)
      modifies this`accentColour
      ensures accentColour == value.GetOr(DefaultAccentColour)
    {
      accentColour := value.GetOr(DefaultAccentColour);
    }

    method SetAutoSave(value: int)
      modifies this`autoSave
      ensures Valid()
      ensures autoSave == ClampAutoSave(value)
    {
      if value < 0 {
        autoSave := 0;
      } else if value > 60 {
        autoSave := 60;
      } else {
        autoSave := value;
      }
    }

    method SetSaveWindowPosition(value: bool)
      modifies this`saveWindowPosition
      ensures saveWindowPosition == value
    {
      saveWindowPosition := value;
    }

    method SetStartOnWindowsStartup(value: bool)
      modifies this`startOnWindowsStartup
      ensures startOnWindowsStartup == value
    {
      startOnWindowsStartup := value;
    }

    /** Settings.Load: the settings in the settings file, or BlankSettings when
        anything fails.  `inStartup` is AppHelper.IsInCurrentUserStartup(). */
    static method Load(fs: FileSystem, appData: string,
                       decode: SettingsDecoder, inStartup: bool) returns (s: Settings)
      ensures fresh(s) && s.Valid()
      ensures s.defaultSaveFileLocation == DefaultSaveFileLocation(appData)
      ensures s.Persisted() == Loaded(fs.files, appData, decode)
      ensures s.startOnWindowsStartup == (Decoded(fs.files, appData, decode).Some? && inStartup)
    {
      var path := SettingsFileLocation(appData);
      if !fs.FileExists(Some(path)) {
        s := BlankSettings(DefaultSaveFileLocation(appData));
        return;
      }
      var decoded := decode(fs.ReadAllText(path));
      if decoded.Failure? || decoded.value.None? {
        s := BlankSettings(DefaultSaveFileLocation(appData));
        return;
      }
      var j := decoded.value.value;
      s := new Settings(j.saveFileLocation, j.accentColour, j.autoSave, j.saveWindowPosition, DefaultSaveFileLocation(appData));
      s.SetStartOnWindowsStartup(inStartup);
    }

    /** Settings.Save: the serialised settings written to the settings file. */
    static method Save(fs: FileSystem, appData: string, settings: Settings,
                       encode: SettingsValue -> string) returns (r: Result<(), Exception>)
      modifies fs
      ensures r.Success? && SettingsFileLocation(appData) in fs.files
      ensures fs.files[SettingsFileLocation(appData)] == encode(settings.Persisted())
      ensures (r, fs.Snapshot()) == AfterWrite(old(fs.Snapshot()), Some(encode(settings.Persisted())), Some(SettingsFileLocation(appData)), false)
    {
      SettingsPathCreatable(appData);
      r := Write(fs, Some(encode(settings.Persisted())), Some(SettingsFileLocation(appData)), false);
    }
  }

  /** The settings file's path can always be created: it has a file name and a
      directory. */
  lemma SettingsPathCreatable(appData: string)
    ensures CreatePathError(Some(SettingsFileLocation(appData))) == None
  {
    assert NoBoundary("mn-settings.json");
    MarsNoteFileCreatable(appData, "mn-settings.json");
  }

  /** Saved settings load back as they were, provided the serialiser reads back what
      it writes; StartOnWindowsStartup is not among them. */
  lemma SaveThenLoad(files: map<string, string>, appData: string, v: SettingsValue,
                     encode: SettingsValue -> string, decode: SettingsDecoder)
    requires MinAutoSave <= v.autoSave <= MaxAutoSave
    requires decode(encode(v)) == Success(Some(JsonOf(v)))
    ensures Loaded(files[SettingsFileLocation(appData) := encode(v)], appData, decode) == v
  {
    ConstructJsonOf(v, DefaultSaveFileLocation(appData));
  }
}
