/** File writing in FileHelper over a modelled file system: a map from path to
    contents and a set of directories.  Paths are compared as exact strings. */
module Files {
  import opened Wrappers
  import opened Text

  predicate IsDirectorySeparator(c: char) {
    c == '\\' || c == '/'
  }

  /** The characters that end a directory part for Path.GetFileName: both directory
      separators and the volume separator. */
  predicate IsNameBoundary(c: char) {
    IsDirectorySeparator(c) || c == ':'
  }

  /** The index of the last character of `s` satisfying `p`, or -1. */
  function LastIndex(s: string, p: char -> bool): (k: int)
    ensures -1 <= k < |s|
    ensures k >= 0 ==> p(s[k])
    ensures forall i :: k < i < |s| ==> !p(s[i])
  {
    if s == [] then -1
    else if p(s[|s| - 1]) then |s| - 1
    else LastIndex(s[..|s| - 1], p)
  }

  predicate NoBoundary(name: string) {
    forall i :: 0 <= i < |name| ==> !IsNameBoundary(name[i])
  }

  /** Path.GetFileName: what follows the last directory or volume separator, or the
      whole path when it has none. */
  function GetFileName(path: string): (name: string)
    ensures NoBoundary(name) && EndsWith(path, name)
    ensures |name| < |path| ==> IsNameBoundary(path[|path| - |name| - 1])
  {
    path[LastIndex(path, IsNameBoundary) + 1..]
  }

  /** The scan of Path.GetRootLength over a UNC path "\\server\share...": from index
      `i`, with `seps` separators still to pass, it stops on the second separator
      after the leading pair, or at the end. */
  function UncRootEnd(path: string, i: nat, seps: nat): (r: nat)
    requires i <= |path|
    ensures i <= r <= |path|
    ensures r < |path| ==> IsDirectorySeparator(path[r])
    decreases |path| - i
  {
    if i == |path| then i
    else if !IsDirectorySeparator(path[i]) then UncRootEnd(path, i + 1, seps)
    else if seps > 1 then UncRootEnd(path, i + 1, seps - 1)
    else i
  }

  /** Path.GetRootLength on Windows: one leading separator is the root of the
      current drive, two start a UNC root "\\server\share", "X:" is a
      drive-relative root and "X:\" a drive root. */
  function RootLength(path: string): (n: nat)
    ensures n <= |path|
    ensures n > 0 ==> IsDirectorySeparator(path[0]) || (|path| >= 2 && path[1] == ':')
  {
    if |path| >= 1 && IsDirectorySeparator(path[0]) then
      if |path| >= 2 && IsDirectorySeparator(path[1]) then UncRootEnd(path, 2, 2) else 1
    else if |path| >= 2 && path[1] == ':' then
      if |path| >= 3 && IsDirectorySeparator(path[2]) then 3 else 2
    else 0
  }

  /** Path.GetDirectoryName: null for a path that is nothing but a root; otherwise
      the path up to its last directory separator after the root, or the root
      itself when no separator follows it. */
  function GetDirectoryName(path: string): (r: Option<string>)
    ensures r.None? <==> |path| <= RootLength(path)
    ensures r.Some? ==>
      && RootLength(path) <= |r.value| < |path| && r.value == path[..|r.value|]
      && (|r.value| > RootLength(path) ==> IsDirectorySeparator(path[|r.value|]))
      && (forall i :: |r.value| < i < |path| ==> !IsDirectorySeparator(path[i]))
  {
    var root := RootLength(path);
    if |path| <= root then None
    else
      var k := LastIndex(path[root..], IsDirectorySeparator);
      assert forall i :: root + k < i < |path| ==> path[i] == path[root..][i - root];
      Some(path[..if k < 0 then root else root + k])
  }

  /** Path.IsPathRooted. */
  predicate IsPathRooted(path: string) {
    (|path| >= 1 && IsDirectorySeparator(path[0])) || (|path| >= 2 && path[1] == ':')
  }

  /** Path.Combine: `path2` after `path1`, with a backslash between them unless
      `path1` already ends in a separator; an empty part is dropped, and a rooted
      `path2` replaces `path1`. */
  function Combine(path1: string, path2: string): (r: string)
    ensures path2 == [] ==> r == path1
    ensures path2 != [] && (path1 == [] || IsPathRooted(path2)) ==> r == path2
    ensures path1 != [] && path2 != [] && !IsPathRooted(path2) ==>
      && |path1| + |path2| <= |r| <= |path1| + 1 + |path2|
      && r[..|path1|] == path1 && EndsWith(r, path2) && IsNameBoundary(r[|r| - |path2| - 1])
  {
    if path2 == [] then path1
    else if path1 == [] || IsPathRooted(path2) then path2
    else if IsNameBoundary(path1[|path1| - 1]) then path1 + path2
    else path1 + "\\" + path2
  }

  /** The path CreateFileAndDirectory(fileName, directory) creates. */
  function JoinFile(directory: string, fileName: string): string {
    directory + (if EndsWith(directory, "\\") then "" else "\\") + fileName
  }

  /** The directories that Directory.CreateDirectory(path) makes exist: the path and
      every prefix of it that ends just before a directory separator, down to the
      root, which is taken to exist already. */
  function Ancestors(path: string): set<string> {
    set k | RootLength(path) < k <= |path| && (k == |path| || IsDirectorySeparator(path[k])) :: path[..k]
  }

  lemma LastIndexAppend(a: string, b: string, p: char -> bool)
    requires forall i :: 0 <= i < |b| ==> !p(b[i])
    ensures LastIndex(a + b, p) == LastIndex(a, p)
    decreases |b|
  {
    if b != [] {
      assert (a + b)[..|a + b| - 1] == a + b[..|b| - 1];
      LastIndexAppend(a, b[..|b| - 1], p);
    } else {
      assert a + b == a;
    }
  }

  /** The file name of a combined path is the name that was combined. */
  lemma FileNameOfCombine(directory: string, name: string)
    requires NoBoundary(name) && name != []
    ensures GetFileName(Combine(directory, name)) == name
  {
    var c := Combine(directory, name);
    var front := c[..|c| - |name|];
    assert c == front + name;
    LastIndexAppend(front, name, IsNameBoundary);
    if directory != [] {
      assert LastIndex(front, IsNameBoundary) == |front| - 1;
    } else {
      assert front == [];
    }
  }

  /** A UNC root stops at the first separator it meets once one is left to pass. */
  lemma {:induction false} UncRootStops(path: string, i: nat, j: nat)
    requires i <= j < |path| && IsDirectorySeparator(path[j])
    ensures UncRootEnd(path, i, 1) <= j
    decreases j - i
  {
    if !IsDirectorySeparator(path[i]) {
      UncRootStops(path, i + 1, j);
    }
  }

  lemma {:induction false} UncRootStopsSecond(path: string, i: nat, j1: nat, j2: nat)
    requires i <= j1 < j2 < |path| && IsDirectorySeparator(path[j1]) && IsDirectorySeparator(path[j2])
    ensures UncRootEnd(path, i, 2) <= j2
    decreases j1 - i
  {
    if !IsDirectorySeparator(path[i]) {
      UncRootStopsSecond(path, i + 1, j1, j2);
    } else {
      UncRootStops(path, i + 1, j2);
    }
  }

  /** Two separators past the first two characters end every root before the second
      of them. */
  lemma RootBeforeSeparators(path: string, j1: nat, j2: nat)
    requires 2 <= j1 < j2 < |path| && IsDirectorySeparator(path[j1]) && IsDirectorySeparator(path[j2])
    ensures RootLength(path) <= j2
  {
    if IsDirectorySeparator(path[0]) && IsDirectorySeparator(path[1]) {
      UncRootStopsSecond(path, 2, j1, j2);
    }
  }

  /** The root of a joined path: inside the directory part, ending exactly at the
      added separator (a drive root or a lone separator), or the whole path (a UNC
      server with no share). */
  lemma JoinedRoot(front: string, fileName: string)
    requires front != [] && front[|front| - 1] == '\\'
    requires NoBoundary(fileName) && fileName != []
    ensures var p := front + fileName;
      RootLength(p) < |front| || RootLength(p) == |front| || RootLength(p) == |p|
  {
    var p := front + fileName;
    var n := RootLength(p);
    if |front| <= n < |p| {
      assert !IsDirectorySeparator(p[|front|]) && !IsNameBoundary(p[|front|]);
      if IsDirectorySeparator(p[0]) && IsDirectorySeparator(p[1]) {
        assert p[n] == fileName[n - |front|];
      } else if IsDirectorySeparator(p[0]) {
      } else {
        assert p[1] == ':' && p[|front| - 1] == '\\';
      }
    }
  }

  /** Joining a directory and a file name, then splitting the result, gives the file
      name back; the directory part is the directory with its separator, which
      JoinFile added when it was missing, dropped — unless that separator belongs to
      the root ("X:\" or "\"), which is kept whole, or the root takes the whole path. */
  lemma SplitJoinFile(directory: string, fileName: string)
    requires NoBoundary(fileName) && fileName != []
    ensures GetFileName(JoinFile(directory, fileName)) == fileName
    ensures var front := directory + (if EndsWith(directory, "\\") then "" else "\\");
      var p := JoinFile(directory, fileName);
      GetDirectoryName(p)
        == if RootLength(p) < |front| then Some(front[..|front| - 1])
           else if RootLength(p) == |front| then Some(front)
           else None
  {
    var front := directory + (if EndsWith(directory, "\\") then "" else "\\");
    var p := JoinFile(directory, fileName);
    assert p == front + fileName;
    assert front[|front| - 1] == '\\';
    LastIndexAppend(front, fileName, IsNameBoundary);
    JoinedRoot(front, fileName);
    var root := RootLength(p);
    if root < |p| {
      var d := GetDirectoryName(p).value;
      assert forall i :: |front| <= i < |p| ==> p[i] == fileName[i - |front|];
      if root < |front| {
        assert IsDirectorySeparator(p[|front| - 1]);
        assert |d| == |front| - 1;
        assert d == front[..|front| - 1];
      } else {
        assert |d| == root;
      }
    }
  }

  /** GetDirectoryName keeps a drive root "X:\". */
  lemma DriveRootKept(drive: char, fileName: string)
    requires !IsDirectorySeparator(drive) && NoBoundary(fileName) && fileName != []
    ensures GetDirectoryName([drive, ':', '\\'] + fileName) == Some([drive, ':', '\\'])
  {
    var a := [drive, ':', '\\'] + fileName;
    assert RootLength(a) == 3;
    assert forall i :: 3 <= i < |a| ==> a[i] == fileName[i - 3];
  }

  /** GetDirectoryName keeps a drive-relative root "X:". */
  lemma DriveRelativeRootKept(drive: char, fileName: string)
    requires !IsDirectorySeparator(drive) && NoBoundary(fileName) && fileName != []
    ensures GetDirectoryName([drive, ':'] + fileName) == Some([drive, ':'])
  {
    var b := [drive, ':'] + fileName;
    assert !IsDirectorySeparator(fileName[0]);
    assert RootLength(b) == 2;
    assert forall i :: 2 <= i < |b| ==> b[i] == fileName[i - 2];
  }

  /** GetDirectoryName keeps the root "\" of the current drive. */
  lemma CurrentRootKept(fileName: string)
    requires NoBoundary(fileName) && fileName != []
    ensures GetDirectoryName("\\" + fileName) == Some("\\")
  {
    var c := "\\" + fileName;
    assert !IsDirectorySeparator(fileName[0]);
    assert RootLength(c) == 1;
    assert forall i :: 1 <= i < |c| ==> c[i] == fileName[i - 1];
  }

  /** Every directory that Directory.CreateDirectory(path) makes. */
  lemma AncestorsHoldPath(path: string)
    requires RootLength(path) < |path|
    ensures path in Ancestors(path)
    ensures forall k :: RootLength(path) < k < |path| && IsDirectorySeparator(path[k]) ==> path[..k] in Ancestors(path)
  {
    assert path[..|path|] == path;
  }

  /** MarsNoteDirectory: the application's folder under the roaming application
      data folder `appData` (Environment.SpecialFolder.ApplicationData). */
  function MarsNoteDirectory(appData: string): string {
    appData + "\\ACW Technologies\\MarsNote\\"
  }

  function SettingsFileLocation(appData: string): string {
    MarsNoteDirectory(appData) + "mn-settings.json"
  }

  /** DefaultSaveFileLocation: the save file lives in MarsNoteDirectory by default. */
  function DefaultSaveFileLocation(appData: string): string {
    MarsNoteDirectory(appData)
  }

  const DefaultSaveFileName := "mn-save.json"

  /** However the application data folder is written, the root of a path under the
      MarsNote directory ends before the directory's last separator. */
  lemma MarsNoteRoot(appData: string, name: string)
    ensures RootLength(MarsNoteDirectory(appData) + name) < |MarsNoteDirectory(appData)|
  {
    var p := MarsNoteDirectory(appData) + name;
    var j := |appData|;
    assert p[j + 17] == '\\' && p[j + 26] == '\\';
    RootBeforeSeparators(p, j + 17, j + 26);
  }

  /** The modelled file system as a value. */
  datatype Disk = Disk(files: map<string, string>, dirs: set<string>)

  /** The file system: file contents by path, and the directories that exist. */
  class FileSystem {
    var files: map<string, string>
    var dirs: set<string>

    constructor (files: map<string, string>, dirs: set<string>)
      ensures this.files == files && this.dirs == dirs
    {
      this.files, this.dirs := files, dirs;
    }

    function Snapshot(): Disk
      reads this
    {
      Disk(files, dirs)
    }

    /** File.Exists: false for null. */
    predicate FileExists(path: Option<string>)
      reads this
    {
      path.Some? && path.value in files
    }

    /** Directory.Exists: false for null. */
    predicate DirectoryExists(path: Option<string>)
      reads this
    {
      path.Some? && path.value in dirs
    }

    /** File.ReadAllText of an existing file. */
    function ReadAllText(path: string): string
      reads this
      requires path in files
    {
      files[path]
    }

    method CreateDirectory(path: string)
      modifies this`dirs
      ensures dirs == old(dirs) + Ancestors(path)
    {
      dirs := dirs + Ancestors(path);
    }

    /** File.Create: an empty file, replacing any file at `path`. */
    method Create(path: string)
      modifies this`files
      ensures files == old(files)[path := ""]
    {
      files := files[path := ""];
    }

    method WriteAllText(path: string, contents: string)
      modifies this`files
      ensures files == old(files)[path := contents]
    {
      files := files[path := contents];
    }

    /** File.AppendAllText: creates the file when missing. */
    method AppendAllText(path: string, contents: string)
      modifies this`files
      ensures files == old(files)[path := (if path in old(files) then old(files)[path] else "") + contents]
    {
      var existing := if path in files then files[path] else "";
      files := files[path := existing + contents];
    }
  }

  /** The exception CreateFileAndDirectory(fileName, directory) throws, if any. */
  function CreateFileError(fileName: Option<string>, directory: Option<string>): Option<Exception> {
    if fileName.None? then Some(ArgumentNullException("fileName"))
    else if IsNullOrWhiteSpace(fileName) then Some(ArgumentException("fileName cannot be empty."))
    else if directory.None? then Some(ArgumentNullException("directory"))
    else if IsNullOrWhiteSpace(directory) then Some(ArgumentException("directory cannot be empty."))
    else None
  }

  /** The exception CreateFileAndDirectory(path) throws, if any. */
  function CreatePathError(path: Option<string>): Option<Exception> {
    if path.None? then Some(ArgumentNullException("path"))
    else if IsNullOrWhiteSpace(path) then Some(ArgumentException("path cannot be empty."))
    else CreateFileError(Some(GetFileName(path.value)), GetDirectoryName(path.value))
  }

  /** The file CreateFileAndDirectory(path) creates once the path has a directory
      part. */
  function CreatedPath(path: string): string
    requires GetDirectoryName(path).Some?
  {
    JoinFile(GetDirectoryName(path).value, GetFileName(path))
  }

  /** CreateFileAndDirectory(fileName, directory): the directory and its parents are
      created, then an empty file at the joined path; the path is returned in place
      of the open stream. */
  method CreateFileIn(fs: FileSystem, fileName: Option<string>, directory: Option<string>) returns (r: Result<string, Exception>)
    modifies fs
    ensures r.Failure? <==> CreateFileError(fileName, directory).Some?
    ensures r.Failure? ==>
      r.error == CreateFileError(fileName, directory).value && fs.files == old(fs.files) && fs.dirs == old(fs.dirs)
    ensures r.Success? ==>
      && r.value == JoinFile(directory.value, fileName.value)
      && fs.dirs == old(fs.dirs) + Ancestors(directory.value)
      && fs.files == old(fs.files)[r.value := ""]
  {
    if fileName.None? {
      return Failure(ArgumentNullException("fileName"));
    } else if IsNullOrWhiteSpace(fileName) {
      return Failure(ArgumentException("fileName cannot be empty."));
    }
    if directory.None? {
      return Failure(ArgumentNullException("directory"));
    } else if IsNullOrWhiteSpace(directory) {
      return Failure(ArgumentException("directory cannot be empty."));
    }
    fs.CreateDirectory(directory.value);
    var path := directory.value + (if EndsWith(directory.value, "\\") then "" else "\\") + fileName.value;
    fs.Create(path);
    return Success(path);
  }

  /** The outcome of CreateFileAndDirectory(path) on a disk: the created path or the
      exception, and the disk after. */
  function CreateOutcome(d: Disk, path: Option<string>): (Result<string, Exception>, Disk) {
    match CreatePathError(path)
    case Some(e) => (Failure(e), d)
    case None =>
      (Success(CreatedPath(path.value)),
       Disk(d.files[CreatedPath(path.value) := ""], d.dirs + Ancestors(GetDirectoryName(path.value).value)))
  }

  /** CreateFileAndDirectory(path): splits the path into directory and file name. */
  method CreateFileAndDirectory(fs: FileSystem, path: Option<string>) returns (r: Result<string, Exception>)
    modifies fs
    ensures r.Failure? <==> CreatePathError(path).Some?
    ensures r.Failure? ==>
      r.error == CreatePathError(path).value && fs.files == old(fs.files) && fs.dirs == old(fs.dirs)
    ensures r.Success? ==>
      && r.value == CreatedPath(path.value)
      && fs.dirs == old(fs.dirs) + Ancestors(GetDirectoryName(path.value).value)
      && fs.files == old(fs.files)[r.value := ""]
    ensures (r, fs.Snapshot()) == CreateOutcome(old(fs.Snapshot()), path)
  {
    if path.None? {
      return Failure(ArgumentNullException("path"));
    } else if IsNullOrWhiteSpace(path) {
      return Failure(ArgumentException("path cannot be empty."));
    }
    var fileName := GetFileName(path.value);
    var directory := GetDirectoryName(path.value);
    r := CreateFileIn(fs, Some(fileName), directory);
  }

  /** The contents a file has after Write: the old contents when appending to an
      existing file, followed by the new ones. */
  function WrittenContents(files: map<string, string>, path: string, contents: string, append: bool): string {
    (if append && path in files then files[path] else "") + contents
  }

  /** The outcome of FileHelper.Write on a disk: what it returns and the disk after. */
  function AfterWrite(d: Disk, contents: Option<string>, path: Option<string>, append: bool): (Result<(), Exception>, Disk) {
    if contents.None? then (Success(()), d)
    else if path.Some? && path.value in d.files then
      (Success(()), d.(files := d.files[path.value := WrittenContents(d.files, path.value, contents.value, append)]))
    else match CreatePathError(path)
      case Some(e) => (Failure(e), d)
      case None =>
        var created := d.files[CreatedPath(path.value) := ""];
        (Success(()), Disk(created[path.value := contents.value], d.dirs + Ancestors(GetDirectoryName(path.value).value)))
  }

  /** After a Write that succeeds the file holds the written contents, appended to
      the old ones when asked; no directory disappears; the only other file touched
      is the one File.Create made, and a Write that fails changes nothing. */
  lemma WriteReadsBack(d: Disk, contents: Option<string>, path: Option<string>, append: bool)
    ensures var (r, e) := AfterWrite(d, contents, path, append);
      && (r.Success? && contents.Some? ==>
            path.Some? && path.value in e.files
            && e.files[path.value] == WrittenContents(d.files, path.value, contents.value, append))
      && (r.Failure? ==> e == d)
      && d.dirs <= e.dirs
      && (forall p :: p in d.files && Some(p) != path && (CreatePathError(path).Some? || p != CreatedPath(path.value)) ==>
            p in e.files && e.files[p] == d.files[p])
  {
    if contents.Some? && !(path.Some? && path.value in d.files) {
      match CreatePathError(path)
      case Some(_) =>
        assert AfterWrite(d, contents, path, append) == (Failure(CreatePathError(path).value), d);
      case None =>
        var created := d.files[CreatedPath(path.value) := ""];
        var e := Disk(created[path.value := contents.value], d.dirs + Ancestors(GetDirectoryName(path.value).value));
        assert AfterWrite(d, contents, path, append) == (Success(()), e);
        assert WrittenContents(d.files, path.value, contents.value, append) == contents.value;
    }
  }

  /** A path made of a directory that does not end in a backslash and a file name is
      the path CreateFileAndDirectory creates, whenever it has a directory part, so
      Write creates no second file. */
  lemma CreatedPathOfJoin(directory: string, fileName: string)
    requires NoBoundary(fileName) && fileName != [] && !EndsWith(directory, "\\")
    ensures var p := JoinFile(directory, fileName);
      GetDirectoryName(p).Some? ==> CreatedPath(p) == p
  {
    SplitJoinFile(directory, fileName);
    var front := directory + "\\";
    assert front[..|front| - 1] == directory;
  }

  /** What follows a separator that no other separator follows is the file name. */
  lemma FileNameAfter(front: string, name: string)
    requires front != [] && IsNameBoundary(front[|front| - 1]) && NoBoundary(name)
    ensures GetFileName(front + name) == name
  {
    LastIndexAppend(front, name, IsNameBoundary);
  }

  /** A path that starts at the root of the current drive is created in place. */
  lemma CurrentRootPathCreated(name: string)
    requires NoBoundary(name) && !IsNullOrWhiteSpace(Some(name))
    ensures CreatePathError(Some("\\" + name)) == None
    ensures CreatedPath("\\" + name) == "\\" + name
  {
    var p := "\\" + name;
    CurrentRootKept(name);
    FileNameAfter("\\", name);
    assert !IsNullOrWhiteSpace(Some(p)) by { assert p[0] == '\\'; }
    assert !IsNullOrWhiteSpace(Some("\\")) by { assert "\\"[0] == '\\'; }
    assert EndsWith("\\", "\\");
  }

  /** A path relative to a drive is created at the root of that drive. */
  lemma DriveRelativePathCreated(drive: char, name: string)
    requires !IsDirectorySeparator(drive) && !IsWhiteSpace(drive)
    requires NoBoundary(name) && !IsNullOrWhiteSpace(Some(name))
    ensures CreatePathError(Some([drive, ':'] + name)) == None
    ensures CreatedPath([drive, ':'] + name) == [drive, ':', '\\'] + name
  {
    DriveRelativeRootKept(drive, name);
    FileNameAfter([drive, ':'], name);
    assert ([drive, ':'] + name)[0] == drive;
    assert [drive, ':'] + "\\" + name == [drive, ':', '\\'] + name;
  }

  /** A path at the root of a drive is created in place. */
  lemma DriveRootPathCreated(drive: char, name: string)
    requires !IsDirectorySeparator(drive) && !IsWhiteSpace(drive)
    requires NoBoundary(name) && !IsNullOrWhiteSpace(Some(name))
    ensures CreatePathError(Some([drive, ':', '\\'] + name)) == None
    ensures CreatedPath([drive, ':', '\\'] + name) == [drive, ':', '\\'] + name
  {
    DriveRootKept(drive, name);
    FileNameAfter([drive, ':', '\\'], name);
    assert ([drive, ':', '\\'] + name)[0] == drive;
    assert EndsWith([drive, ':', '\\'], "\\");
  }

  /** A directory joined with a file name, with the root ending before the added
      separator, is accepted by CreateFileAndDirectory, which splits it back into
      that directory and that name. */
  lemma JoinedPathCreatable(directory: string, name: string)
    requires NoBoundary(name) && name != [] && !IsWhiteSpace(name[|name| - 1])
    requires directory != [] && !IsWhiteSpace(directory[|directory| - 1]) && !EndsWith(directory, "\\")
    requires RootLength(JoinFile(directory, name)) <= |directory|
    ensures CreatePathError(Some(JoinFile(directory, name))) == None
    ensures GetDirectoryName(JoinFile(directory, name)) == Some(directory)
  {
    var p := JoinFile(directory, name);
    SplitJoinFile(directory, name);
    var front := directory + "\\";
    assert front[..|front| - 1] == directory;
    assert p[|p| - 1] == name[|name| - 1];
  }

  /** Every file named in the MarsNote directory can be created. */
  lemma MarsNoteFileCreatable(appData: string, name: string)
    requires NoBoundary(name) && name != [] && !IsWhiteSpace(name[|name| - 1])
    ensures CreatePathError(Some(MarsNoteDirectory(appData) + name)) == None
  {
    var dir := appData + "\\ACW Technologies\\MarsNote";
    assert dir + "\\" == MarsNoteDirectory(appData);
    assert dir[|dir| - 1] == 'e';
    assert JoinFile(dir, name) == MarsNoteDirectory(appData) + name;
    MarsNoteRoot(appData, name);
    JoinedPathCreatable(dir, name);
  }

  /** FileHelper.Write: nothing for null contents; otherwise create the file (and its
      directory) when missing, then replace or append to its contents. */
  method Write(fs: FileSystem, contents: Option<string>, path: Option<string>, append: bool) returns (r: Result<(), Exception>)
    modifies fs
    ensures contents.None? ==> r.Success? && fs.files == old(fs.files) && fs.dirs == old(fs.dirs)
    ensures r.Failure? <==> contents.Some? && !old(fs.FileExists(path)) && CreatePathError(path).Some?
    ensures r.Failure? ==>
      r.error == CreatePathError(path).value && fs.files == old(fs.files) && fs.dirs == old(fs.dirs)
    ensures contents.Some? && old(fs.FileExists(path)) ==>
      fs.files == old(fs.files)[path.value := WrittenContents(old(fs.files), path.value, contents.value, append)]
      && fs.dirs == old(fs.dirs)
    ensures contents.Some? && !old(fs.FileExists(path)) && r.Success? ==>
      fs.files == old(fs.files)[CreatedPath(path.value) := ""][path.value := contents.value]
      && fs.dirs == old(fs.dirs) + Ancestors(GetDirectoryName(path.value).value)
    ensures (r, fs.Snapshot()) == AfterWrite(old(fs.Snapshot()), contents, path, append)
  {
    if contents.None? {
      return Success(());
    }
    if !fs.FileExists(path) {
      var created := CreateFileAndDirectory(fs, path);
      if created.Failure? {
        return Failure(created.error);
      }
    }
    assert "" + contents.value == contents.value;
    if append {
      ghost var before := fs.files;
      fs.AppendAllText(path.value, contents.value);
      assert path.value in before ==> before[path.value] == "" || path.value in old(fs.files);
    } else {
      fs.WriteAllText(path.value, contents.value);
    }
    return Success(());
  }
}
