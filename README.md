# MarsNote core in Dafny

MarsNote is a desktop note-taking application. Notes live in folders, and folders live in profiles. This project models three parts of it:
- the rules that keep that hierarchy consistent;
- the order in which it is written to the save file;
- the small file-system and settings logic around saving.

Each part is modelled in the form the C# code has. Objects whose setters change fields in place are Dafny classes with `modifies` clauses. Loops are `while` loops with invariants. Pure computations are functions over values, with lemmas about them.

## Modules

| Module | File | Models |
|---|---|---|
| `Wrappers` | `wrappers.dfy` | C# null as `Option`; thrown exceptions as `Result` |
| `Text` | `text.dfy` | `string.IsNullOrWhiteSpace`, `?? string.Empty` |
| `KeySort` | `keysort.dfy` | the stable LINQ `OrderBy` under any total preorder, with its laws |
| `Pinning` | `pinning.dfy` | the pin pass of `FileHelper.Sort` (the in-place `RemoveAt`/`Insert` loop), with its specification as a stable partition |
| `Ordering` | `ordering.dfy` | `FileHelper.Sort` and `FileHelper.SortProfiles` on the deep clone, and what the saved order is |
| `Hierarchy` | `hierarchy.dfy` | classes `Note`, `Folder` and `Profile` with their setters, the `PropertyChanged` events and the read-for-modification gate; the clone (`Capture*`) and the load (`Restore*`) of the object graph |
| `Files` | `files.dfy` | a file system (`FileSystem`: a path→contents map and a directory set), `Path` helpers, `CreateFileAndDirectory` and `Write` |
| `Config` | `config.dfy` | class `Settings` with its clamping and defaulting setters, `BlankSettings`, `Load` and `Save` |
| `Storage` | `storage.dfy` | the state of the static `FileHelper` (the save directory), `LoadSaveFileLocation`, `FolderContainsSaveFile`, `SaveProfiles` and `LoadProfiles` |
| `Collections` | `collections.dfy` | `Collection<T>.Remove` and `IndexOf` by reference |
| `Queries` | `queries.dfy` | the `ExtensionMethods` searches |
| `Window` | `window.dfy` | class `MainWindow` and the operations behind its buttons |

## Modelling choices

**Time and inputs**
- Time is an integer tick count. Every reading of `DateTime.Now` is a `now` parameter.
- Every dialog answer is a parameter: a typed name, a pressed button, or a chosen folder.

**Values**
- Colours are ARGB byte records. `Transparent` is `#00FFFFFF` and `Green` is `#FF008000`.
- After construction, a note is `Valid()` when its colour is either the exact transparent colour or fully opaque.

**Saving and loading**
- Saving goes through `JsonHelper.DeepClone`. This is modelled as capturing the live objects as values, which `CaptureProfiles` does.
- The capture fails exactly where deserialising the JSON would throw: when a profile name is null or blank, or a folder name is blank (the JSON constructors reject those).
- Serialisation itself is a parameter: `encode` and `decode` functions.
- Methods that write files end in a state given by an outcome function over the old disk: `AfterWrite`, `CreateOutcome`, `SaveOutcome` or `RelocationOutcome`. Lemmas about those functions state what a later read returns.
  - For example, `WriteReadsBack` says the written file holds the written text.
  - `SaveThenLoad` and `SettingsWriteReadsBack` say settings that were saved load back as they were.
  - `SavedProfilesLoad` says a save file written by `SaveProfiles` is accepted by every constructor it is read back through.

**Ordering**
- Name ordering uses the default object comparer. In the code that is culture-sensitive.
- Here it is a parameter `compare`, required to be a total preorder, lifted so that a null name comes first (`NullFirst`).
- `LastModified` is compared by ticks.

**Points the code leaves open, and how the model reads them**
- Only `Note` and `Folder` implement `IPinnable`, so profiles are sorted by name alone (MarsNote/FileHelper.cs:249). The model follows the code.
- `GetUISettings` calls a five-argument `Settings` constructor, and the window calls `Save()` on an instance. Neither exists in Settings.cs, which has a four-argument constructor and a static `Save`. The model follows Settings.cs and drops the always-on-top flag.
- The reflection check at MarsNote/FileHelper.cs:241 tests the property name, not the looked-up property. An unknown name would therefore fail later with a null reference. All three call sites name existing properties, and the model uses typed key functions.

## Model

| member | source | states |
|---|---|---|
| KeySort.ReverseIsTotalPreorder | MarsNote/FileHelper.cs:245 | the comparison used by OrderByDescending (the reversed comparer) is again a total preorder |
| KeySort.OrderByPermutes | MarsNote/FileHelper.cs:243-245 | the key sort returns a permutation of its input |
| KeySort.OrderBy | MarsNote/FileHelper.cs:243-245 | the key sort returns as many items as it was given; what they are and their order are the lemmas below |
| KeySort.OrderBySorted | MarsNote/FileHelper.cs:243-245 | the key sort's result is ordered by the key |
| KeySort.OrderByStable | MarsNote/FileHelper.cs:243-245 | items whose keys tie keep their input order (OrderBy is stable) |
| KeySort.OrderBySortedInput | MarsNote/FileHelper.cs:243-245 | an input already ordered by the key comes back unchanged |
| KeySort.OrderByIdempotent | MarsNote/FileHelper.cs:243-245 | sorting twice equals sorting once |
| KeySort.InsertTies | MarsNote/FileHelper.cs:243-245 | inserting one item into a sorted list places it after every item with a tying key |
| Pinning.PinPass | MarsNote/FileHelper.cs:252-268 | the loop with `moved`, `i++` and RemoveAt/Insert(0) terminates (variant `i - moved`) and yields the pinned items followed by the unpinned ones, each group in the order of the key-sorted input |
| Pinning.StagePinned | MarsNote/FileHelper.cs:257-266 | on a pinned item, RemoveAt(i) then Insert(0) moves exactly the item under `i` from the middle part to the front part, and the front grows by one |
| Pinning.StageUnpinned | MarsNote/FileHelper.cs:257-260 | on an unpinned item, the list is unchanged and the item joins the back part |
| Pinning.PinnedFirstPermutes | MarsNote/FileHelper.cs:252-268 | the pin pass returns the same items (a permutation), and as many of them |
| Pinning.PinnedPrecedeUnpinned | MarsNote/FileHelper.cs:255-268 | after the pin pass no unpinned item comes before a pinned one |
| Pinning.PinnedFirstStable | MarsNote/FileHelper.cs:255-268 | the pinned items keep their order among themselves, and so do the unpinned ones |
| Pinning.PinnedFirstIdempotent | MarsNote/FileHelper.cs:255-268 | running the pin pass twice changes nothing beyond the first run |
| Pinning.NothingPinned | MarsNote/FileHelper.cs:248-268 | with no pinned item the pass returns the key sort unchanged |
| Pinning.KeepSatisfies | MarsNote/FileHelper.cs:260 | the front group holds only pinned items and the back group only unpinned ones |
| Pinning.KeepPermutes | MarsNote/FileHelper.cs:252-268 | the two groups together hold exactly the elements of the input |
| Ordering.KeepOrderBy | MarsNote/FileHelper.cs:243-268 | taking the pinned items of the key-sorted list equals key-sorting the pinned items |
| Ordering.DropOrderBy | MarsNote/FileHelper.cs:243-268 | the same for the unpinned items |
| Ordering.DirectionIsTotalPreorder | MarsNote/FileHelper.cs:243-245 | both sort directions compare by a total preorder |
| Ordering.NullFirstIsTotalPreorder | MarsNote/FileHelper.cs:244 | ordering names with null first and strings by `compare` is a total preorder |
| Ordering.Sort | MarsNote/FileHelper.cs:238-272 | FileHelper.Sort returns the key sort in the requested direction; for a pinnable type it puts the key-sorted pinned items before the key-sorted unpinned ones |
| Ordering.ArrangePermutes | MarsNote/FileHelper.cs:238-272 | Sort returns a permutation of its input |
| Ordering.ArrangeOrdered | MarsNote/FileHelper.cs:238-272 | in Sort's result pinned items come first, and two items of the same group are in key order for the chosen direction |
| Ordering.ArrangeIdempotent | MarsNote/FileHelper.cs:238-272 | sorting Sort's result again changes nothing |
| Ordering.ArrangeMap | MarsNote/FileHelper.cs:211-221 | changing the elements in a way that keeps their keys and pins (sorting their children) commutes with Sort |
| Ordering.SortProfiles | MarsNote/FileHelper.cs:204-224 | the nested loops over the clone produce SavedOrder: profiles by name, each one's folders pinned first and then by name, each folder's notes pinned first and then newest first |
| Ordering.SortFolders | MarsNote/FileHelper.cs:211-221 | the folder loop sorts one profile's folders and then each folder's notes, giving SortedFolders |
| Ordering.SortedNotesOrdered | MarsNote/FileHelper.cs:219 | saved notes: pinned ones first; newer before older within each group |
| Ordering.SortedFoldersOrdered | MarsNote/FileHelper.cs:214 | saved folders: pinned ones first; by name (under `compare`) within each group |
| Ordering.SavedOrderOrdered | MarsNote/FileHelper.cs:209 | saved profiles are ordered by name, with a null name first; there is no pin pass for profiles |
| Ordering.SortedNotesPermutes | MarsNote/FileHelper.cs:219 | sorting a folder's notes keeps every note |
| Ordering.SortedFoldersPermutes | MarsNote/FileHelper.cs:214-220 | the saved folders are the input folders, each with its notes sorted, reordered |
| Ordering.SavedOrderPermutes | MarsNote/FileHelper.cs:209-221 | the saved profiles are the input profiles, each with its folders sorted, reordered |
| Ordering.WithSortedNotesIdempotent | MarsNote/FileHelper.cs:219 | sorting a folder's notes twice is sorting them once |
| Ordering.SortedFoldersIdempotent | MarsNote/FileHelper.cs:214-220 | sorting a profile's folders (and their notes) twice is sorting once |
| Ordering.SavedOrderIdempotent | MarsNote/FileHelper.cs:204-224 | saving already sorted profiles saves them in the same order |
| Ordering.OrderByPairSwaps | MarsNote/FileHelper.cs:243-245 | two items out of key order are swapped |
| Ordering.NewestFirstExample | MarsNote/FileHelper.cs:219 | notes A (tick 1), B (tick 3) and C (tick 2, pinned) are saved as C, B, A |
| Ordering.SortedFoldersNamed | MarsNote/FileHelper.cs:214 | sorting folders loses and blanks no name, so folders that can be read back still can |
| Ordering.SavedOrderNamed | MarsNote/FileHelper.cs:204-224 | the same for the whole sorted clone |
| Hierarchy.StoredColour | MarsNote/Note.cs:154-169 | a null brush becomes Transparent; exact Transparent and opaque colours are kept; any other colour gets alpha 255 with its RGB kept, so a stored colour is always Transparent or opaque |
| Hierarchy.Note.constructor | MarsNote/Note.cs:51-61 | null texts become "", the colour is normalised, LastModified is the argument and not the clock (the gate opens only at the end), the six setters raise their events in order, and the gate is then open |
| Hierarchy.Note.Blank | MarsNote/Note.cs:63 | `new Note()` has empty texts, Transparent, not pinned and LastModified = now |
| Hierarchy.Note.Modified | MarsNote/Note.cs:67-70 | the time is stamped (raising LastModified) only when the gate is open |
| Hierarchy.Note.SetName | MarsNote/Note.cs:90-102 | stores the value or "" for null, raises Name, and stamps `now` after construction; nothing else changes |
| Hierarchy.Note.SetDescription | MarsNote/Note.cs:109-121 | as SetName, for the description |
| Hierarchy.Note.SetContent | MarsNote/Note.cs:128-140 | as SetName, for the content |
| Hierarchy.Note.SetColour | MarsNote/Note.cs:148-173 | stores StoredColour of the value, raises Colour, stamps `now` after construction, and keeps the note Valid |
| Hierarchy.Note.SetLastModified | MarsNote/Note.cs:196-207 | stores the value and raises LastModified, without stamping the clock |
| Hierarchy.Note.SetPinned | MarsNote/Note.cs:214-225 | stores the value and raises Pinned; LastModified is left alone |
| Hierarchy.Note.NotifyPropertyChanged | MarsNote/Note.cs:229-232 | appends the property's name to the events raised |
| Hierarchy.Folder.constructor | MarsNote/Folder.cs:28-34 | for a non-blank name: stores name, notes (empty for null) and pinned, raising Name, Notes and Pinned |
| Hierarchy.Folder.Create | MarsNote/Folder.cs:27-34 | construction fails exactly when the name is null, empty or white space |
| Hierarchy.Folder.Named | MarsNote/Folder.cs:36 | `new Folder(name)`: no notes and not pinned, failing for a blank name |
| Hierarchy.Folder.SetName | MarsNote/Folder.cs:43-54 | stores "" for null, does not check for blankness again, and raises Name |
| Hierarchy.Folder.SetNotes | MarsNote/Folder.cs:59-70 | stores the list given and raises Notes |
| Hierarchy.Folder.SetPinned | MarsNote/Folder.cs:75-86 | stores the value given and raises Pinned |
| Hierarchy.Folder.NotifyPropertyChanged | MarsNote/Folder.cs:93-96 | appends the property's name to the events raised |
| Hierarchy.Profile.constructor | MarsNote/Profile.cs:25-30 | for a non-blank name: stores the name and the folders (empty for null), raising Name and Folders |
| Hierarchy.Profile.Create | MarsNote/Profile.cs:24-30 | construction fails exactly when the name is null, empty or white space |
| Hierarchy.Profile.Named | MarsNote/Profile.cs:32 | `new Profile(name)` has no folders |
| Hierarchy.Profile.SetName | MarsNote/Profile.cs:39-50 | stores the value unchanged, null included (no mapping to ""), and raises Name |
| Hierarchy.Profile.SetFolders | MarsNote/Profile.cs:55-66 | stores the list given and raises Folders |
| Hierarchy.Profile.NotifyPropertyChanged | MarsNote/Profile.cs:70-73 | appends the property's name to the events raised |
| Hierarchy.CaptureProfiles | MarsNote/FileHelper.cs:206 | a deep clone that succeeds holds one value per profile (when it fails is CaptureProfilesFails) |
| Hierarchy.CaptureFoldersFails | MarsNote/Folder.cs:30 | the deep clone of a folder list fails exactly when some folder's name is blank; otherwise it has one value per folder |
| Hierarchy.CaptureFoldersAt | MarsNote/FileHelper.cs:206 | each folder's clone sits at that folder's index |
| Hierarchy.CaptureProfilesFails | MarsNote/FileHelper.cs:206 | the deep clone of the profiles fails exactly when a profile's name is null or blank, or one of its folders' names is blank |
| Hierarchy.CaptureFoldersNamed | MarsNote/FileHelper.cs:206 | a clone that succeeds holds only folder names that read back |
| Hierarchy.CaptureProfilesNamed | MarsNote/FileHelper.cs:206 | a clone that succeeds holds only profile and folder names that read back |
| Hierarchy.RestoreNotes | MarsNote/Note.cs:51-61 | rebuilding notes through the JSON constructor yields fresh, valid notes whose clone is the input with colours normalised |
| Hierarchy.RestoreFolder | MarsNote/Folder.cs:27-34 | rebuilding a folder fails exactly for a blank name; otherwise its clone is the input, with its notes normalised |
| Hierarchy.RestoreFolders | MarsNote/Folder.cs:27-34 | rebuilding a folder list fails exactly when some name is blank; otherwise its clone is the input, normalised |
| Hierarchy.RestoreProfile | MarsNote/Profile.cs:24-30 | rebuilding a profile fails exactly when its name or a folder's name is blank; otherwise it clones back to the input, normalised |
| Hierarchy.RestoreNext | MarsNote/Profile.cs:24-30 | rebuilding the next profile fails exactly when its name or a folder's name is blank; otherwise a fresh profile is appended, and the clone of the list grows by the normalised value |
| Hierarchy.RestoreProfiles | MarsNote/Profile.cs:24-30 | rebuilding a profile list fails exactly when some profile or folder name is blank; otherwise the profiles are fresh and clone back to the input, normalised |
| Text.IsNullOrWhiteSpace | MarsNote/FileHelper.cs:291 | null and the empty string are blank; what is not blank is a non-empty string; a string whose first character is not white space is not blank |
| Files.GetFileName | MarsNote/FileHelper.cs:293 | Path.GetFileName gives a part with no directory or volume separator, with which the path ends, and which follows such a separator unless it is the whole path |
| Files.RootLength | MarsNote/FileHelper.cs:294 | the root of a path is a prefix of it, and a non-empty root starts with a separator or with a drive letter and ':' |
| Files.GetDirectoryName | MarsNote/FileHelper.cs:294 | Path.GetDirectoryName is null exactly for a path that is no longer than its root; otherwise it gives a proper prefix that keeps the whole root, ends just before a separator unless it is the root itself, and no separator follows it |
| Files.DriveRootKept | MarsNote/FileHelper.cs:294 | the directory of `X:\name` is the root `X:\` itself |
| Files.DriveRelativeRootKept | MarsNote/FileHelper.cs:294 | the directory of `X:name` is the drive-relative root `X:` |
| Files.CurrentRootKept | MarsNote/FileHelper.cs:294 | the directory of `\name` is the root `\` |
| Files.Combine | MarsNote/FileHelper.cs:57 | Path.Combine: an empty second part gives the first; an empty first part or a rooted second part gives the second; otherwise the first part, then one backslash unless it ends in a separator, then the second part |
| Files.JoinedRoot | MarsNote/FileHelper.cs:312 | the root of a directory joined with a file name ends inside the directory part, exactly at the separator before the file name, or takes the whole path |
| Files.MarsNoteRoot | MarsNote/FileHelper.cs:15 | whatever the application data folder is, the root of a path under the MarsNote directory ends before that directory's last separator |
| Files.FileNameOfCombine | MarsNote/FileHelper.cs:57 | the file name of `Combine(directory, name)` is `name`, for every non-empty name without separators |
| Files.SplitJoinFile | MarsNote/FileHelper.cs:293-313 | splitting the joined path gives the file name back; its directory is the directory without the backslash that was added, except that a root ending in that backslash (`X:\`, `\`) is kept whole, and it is null when the root takes the whole path |
| Files.AncestorsHoldPath | MarsNote/FileHelper.cs:311 | Directory.CreateDirectory makes the directory and every parent of it exist |
| Files.JoinedPathCreatable | MarsNote/FileHelper.cs:288-315 | a non-blank directory not ending in a backslash, joined with a non-blank file name after the root, is accepted by CreateFileAndDirectory and split back into that directory |
| Files.MarsNoteFileCreatable | MarsNote/FileHelper.cs:15 | every non-blank file name in the MarsNote directory can be created, whatever the application data folder is |
| Files.CreatedPathOfJoin | MarsNote/FileHelper.cs:139-145 | for a directory that does not end in a backslash and a file name, the file CreateFileAndDirectory creates from the joined path (when it has a directory) is that path |
| Files.CurrentRootPathCreated | MarsNote/FileHelper.cs:288-315 | `\name` is accepted, and the file is created at that path |
| Files.DriveRelativePathCreated | MarsNote/FileHelper.cs:288-315 | `X:name` is accepted, and the file is created at `X:\name` |
| Files.DriveRootPathCreated | MarsNote/FileHelper.cs:288-315 | `X:\name` is accepted, and the file is created at that path |
| Files.FileSystem.CreateDirectory | MarsNote/FileHelper.cs:311 | adds the directory and its parents, and nothing else |
| Files.FileSystem.Create | MarsNote/FileHelper.cs:314 | File.Create leaves an empty file at the path |
| Files.FileSystem.WriteAllText | MarsNote/FileHelper.cs:161 | replaces the file's contents |
| Files.FileSystem.AppendAllText | MarsNote/FileHelper.cs:156 | appends to the file's contents, starting from empty for a missing file |
| Files.CreateFileIn | MarsNote/FileHelper.cs:303-315 | a null file name or directory gives ArgumentNullException, and a blank one ArgumentException, in that order, changing nothing; otherwise the directories exist and an empty file sits at directory + `\` (added only if it does not already end in `\`) + file name |
| Files.CreateFileAndDirectory | MarsNote/FileHelper.cs:288-296 | rejects a null or blank path, then splits it into file name and directory (keeping a root, and null for a path that is only a root) and goes on as CreateFileIn; the outcome is CreateOutcome of the old disk |
| Files.Write | MarsNote/FileHelper.cs:131-163 | null contents change nothing; otherwise a missing file is first created (failing, with nothing changed, as CreateFileAndDirectory does), then its contents are replaced or appended to; the outcome is AfterWrite of the old disk |
| Files.WriteReadsBack | MarsNote/FileHelper.cs:131-163 | after a successful Write the file holds the new contents (after the old ones when appending); a failed Write changes nothing; no directory disappears, and no other file changes except the one File.Create made |
| Config.ClampAutoSave | MarsNote/Settings.cs:31-36 | the stored interval is always in [0, 60]: below 0 gives 0, above 60 gives 60, anything else is kept |
| Config.Blank | MarsNote/Settings.cs:64 | BlankSettings holds the default directory, "Red", 0 and true |
| Config.ConstructJsonOf | MarsNote/Settings.cs:52-59 | the constructor turns the serialised form of valid settings back into the same settings |
| Config.Settings.constructor | MarsNote/Settings.cs:52-59 | null location becomes the default directory, null accent "Red", the interval is clamped, null window-position flag becomes true; StartOnWindowsStartup is false |
| Config.Settings.BlankSettings | MarsNote/Settings.cs:64 | a fresh Settings object holding Blank |
| Config.Settings.SetSaveFileLocation | MarsNote/Settings.cs:13-17 | stores the value, or the default directory for null |
| Config.Settings.SetAccentColour | MarsNote/Settings.cs:19-23 | stores the value, or "Red" for null |
| Config.Settings.SetAutoSave | MarsNote/Settings.cs:25-37 | stores the clamped value |
| Config.Settings.SetSaveWindowPosition | MarsNote/Settings.cs:39-43 | stores the value |
| Config.Settings.SetStartOnWindowsStartup | MarsNote/Settings.cs:45-50 | stores the value (it is not part of what is serialised) |
| Config.Settings.Load | MarsNote/Settings.cs:69-88 | the settings file decoded and constructed, or BlankSettings when it is missing, does not decode or holds null; StartOnWindowsStartup is the startup entry's state only when loading succeeded |
| Config.Settings.Save | MarsNote/Settings.cs:94-99 | writes the serialised settings to the settings file, which always succeeds |
| Config.SettingsPathCreatable | MarsNote/FileHelper.cs:25 | the settings file's path has a non-blank file name and directory, so CreateFileAndDirectory accepts it |
| Config.SaveThenLoad | MarsNote/Settings.cs:69-99 | settings written to the settings file load back unchanged when the serialiser round-trips |
| Storage.ChosenLocation | MarsNote/FileHelper.cs:77-92 | the stored location when it is non-blank and exists, else the default directory if that exists, else the location is left as it was (the setter ignores missing directories) |
| Storage.FileHelper.constructor | MarsNote/FileHelper.cs:67-72 | creates the MarsNote directory when missing, then takes the save directory from the settings when it exists, else the default directory; no file changes, and the save directory exists |
| Storage.FileHelper.SaveFileNamed | MarsNote/FileHelper.cs:52-58 | wherever the save directory is, the save file is called "mn-save.json" |
| Storage.FileHelper.SetSaveFileLocation | MarsNote/FileHelper.cs:59-64 | a directory that does not exist is ignored, so the save directory always exists |
| Storage.FileHelper.LoadSaveFileLocation | MarsNote/FileHelper.cs:77-92 | the save directory becomes ChosenLocation of the loaded settings |
| Storage.FileHelper.FolderContainsSaveFile | MarsNote/FileHelper.cs:169-179 | true exactly when the directory exists and holds "mn-save.json" |
| Storage.FileHelper.SaveProfiles | MarsNote/FileHelper.cs:99-105 | null profiles save as an empty list; the clone is sorted and written, failing when the clone throws; the live profiles are unchanged |
| Storage.FileHelper.LoadProfiles | MarsNote/FileHelper.cs:278-282 | a missing file throws ArgumentException; a decoding error propagates; a JSON null gives an empty list; otherwise fresh profiles that clone back to the decoded ones, or the constructors' ArgumentNullException for a blank name |
| Storage.SaveOutcome | MarsNote/FileHelper.cs:99-105 | a clone that fails throws ArgumentNullException("name"); a save that fails leaves the disk as it was; one that succeeds leaves the file holding the encoded SavedOrder of the clone; no directory disappears |
| Storage.SavedProfilesLoad | MarsNote/FileHelper.cs:204-224 | what SaveProfiles writes from a successful clone passes every JSON constructor when it is read back |
| Collections.RemoveFirstAt | MarsNote/MainWindow.xaml.cs:107 | Remove takes out exactly the first occurrence and keeps the order of the rest; with none it changes nothing |
| Collections.RemoveFirstCount | MarsNote/MainWindow.xaml.cs:107 | removing a present item leaves one item fewer: that one |
| Collections.RemoveFirstSubset | MarsNote/MainWindow.xaml.cs:460 | removing adds no item |
| Collections.MoveConserves | MarsNote/MainWindow.xaml.cs:104-107 | moving an item from the source to the front of the destination loses and duplicates nothing |
| Queries.ContainsFolder | MarsNote/ExtensionMethods.cs:13-23 | true exactly when some profile's folders hold the folder (so false for no profiles); reads only |
| Queries.ContainsNote | MarsNote/ExtensionMethods.cs:31-44 | true exactly when some folder of some profile holds the note (so false for no profiles); reads only |
| Queries.InFolders | MarsNote/ExtensionMethods.cs:36-42 | the inner loop: true exactly when some folder of the list holds the note |
| Queries.NoteInContainedFolder | MarsNote/ExtensionMethods.cs:13-44 | a note in a contained folder is a contained note |
| Window.FirstProfileNamed | MarsNote/MainWindow.xaml.cs:253-260 | the index of the first profile with the name, or -1 when none has it |
| Window.FirstFolderNamed | MarsNote/MainWindow.xaml.cs:269-277 | the index of the first folder with the name, or -1 when none has it |
| Window.FindProfile | MarsNote/MainWindow.xaml.cs:253-260 | the foreach loop finds FirstProfileNamed |
| Window.FindFolder | MarsNote/MainWindow.xaml.cs:269-277 | the foreach loop finds FirstFolderNamed |
| Window.AnyProfileNamed | MarsNote/MainWindow.xaml.cs:425-434 | the foreach loop reports whether any profile has the name |
| Window.RelocationMode | MarsNote/MainWindow.xaml.cs:802-838 | with no save file in the chosen folder the mode is Overwrite; otherwise the dialog decides, and only Cancel gives no mode |
| Window.DistinctAfterAppend | MarsNote/MainWindow.xaml.cs:391-401 | appending a profile whose name is unused keeps profile names distinct |
| Window.DistinctFoldersAfterAppend | MarsNote/MainWindow.xaml.cs:533-542 | appending a folder whose name is unused keeps folder names distinct |
| Window.RenameKeepsFoldersDistinct | MarsNote/MainWindow.xaml.cs:622-630 | renaming one folder to a name no folder had keeps distinct names distinct |
| Window.DistinctAfterRemoval | MarsNote/MainWindow.xaml.cs:460 | removing a profile keeps the remaining names distinct |
| Window.FirstRunProfile | MarsNote/MainWindow.xaml.cs:171-175 | the objects built on first run clone to one profile "Profile1" holding one folder "Folder1" holding one pinned green note "Welcome!" stamped `now` |
| Window.FirstRunCaptured | MarsNote/MainWindow.xaml.cs:171-175 | the linked first-run objects clone to exactly that value |
| Window.FirstRunSavedAsBuilt | MarsNote/MainWindow.xaml.cs:166-180 | the first-run profiles read back unchanged, and sorting them for the save changes nothing |
| Window.UISettings | MarsNote/MainWindow.xaml.cs:696-705 | the settings built from the screen hold the location text as typed, the accent or "Red" for none, the interval limited to [0, 60] (kept when inside it), and the window-position flag or true for none |
| Window.SettingsWriteReadsBack | MarsNote/Settings.cs:94-99 | writing settings to the settings file succeeds, and the next load reads them back when the serialiser round-trips |
| Window.RelocationRecorded | MarsNote/MainWindow.xaml.cs:746-789 | relocation fails only when saving the profiles fails; when it succeeds, the next start reads back settings whose save location is the new path |
| Window.SettingsIntervalAccepted | MarsNote/MainWindow.xaml.cs:290 | every interval the settings can hold is accepted by the timer |
| Window.MainWindow.MoveNoteToAnotherFolder | MarsNote/MainWindow.xaml.cs:96-110 | a null argument throws ArgumentNullException for that argument, in order; the same folder twice is a no-op; a note not in the source throws ArgumentException; otherwise the note is first in the destination and its first occurrence is gone from the source, the rest in order |
| Window.MainWindow.MoveFolderToAnotherProfile | MarsNote/MainWindow.xaml.cs:118-140 | the same checks; a destination that already has a folder with the name changes nothing; otherwise the folder is first in the destination and gone from the source; distinct folder names stay distinct |
| Window.MainWindow.AppendProfile | MarsNote/MainWindow.xaml.cs:399-402 | the new profile is appended, the profiles saved (SaveOutcome), and the profile selected only when the save succeeded |
| Window.MainWindow.AddProfile | MarsNote/MainWindow.xaml.cs:384-404 | a blank or used name changes nothing; otherwise a fresh profile with that name and no folders is appended, the profiles are saved, and the new profile is selected once the save succeeds; distinct names stay distinct |
| Window.MainWindow.RenameProfile | MarsNote/MainWindow.xaml.cs:416-439 | null profile, a blank name, or a name any profile has (its own included) changes nothing; otherwise the profile takes the name and the profiles are saved; distinct names stay distinct |
| Window.MainWindow.DeleteProfile | MarsNote/MainWindow.xaml.cs:454-511 | a profile with folders goes only when exactly "CONFIRM" is typed, an empty one only when confirmed, any profile when no confirmation is asked; otherwise nothing changes; after a deletion the profiles are saved and the first remaining one (or none) is selected |
| Window.MainWindow.AddNote | MarsNote/MainWindow.xaml.cs:340-350 | a fresh blank note stamped `now` goes to index 0 of the selected folder, the rest kept, then the profiles are saved |
| Window.MainWindow.NewFolder | MarsNote/MainWindow.xaml.cs:528-545 | a blank name changes nothing; no selected profile throws NullReferenceException; a name used in the selected profile changes nothing; otherwise a fresh empty unpinned folder is appended, the profiles saved, and the folder selected |
| Window.MainWindow.AppendFolder | MarsNote/MainWindow.xaml.cs:540-544 | the new folder is appended to the profile, the profiles saved (SaveOutcome), and the folder selected only when the save succeeded |
| Window.MainWindow.RenameFolder | MarsNote/MainWindow.xaml.cs:613-632 | null folder or blank name changes nothing; no selected profile throws NullReferenceException; a name any folder of the selected profile has (its own included) changes nothing; otherwise the folder is renamed and the profiles saved |
| Window.MainWindow.FirstTimeLaunch | MarsNote/MainWindow.xaml.cs:166-180 | the save file is created (its exception ends the launch); then exactly one profile, holding the first-run folder and note, is loaded, saved, and selected |
| Window.MainWindow.LoadFirstRun | MarsNote/MainWindow.xaml.cs:171-180 | exactly one profile, the first-run profile, is loaded and saved (SaveOutcome), and selected only when the save succeeded |
| Window.MainWindow.UILoadState | MarsNote/MainWindow.xaml.cs:249-280 | with a saved profile name, the first profile with that name is selected (none: the selection stays); with a saved folder name too, the first folder of the selected profile with that name is selected |
| Window.MainWindow.SelectProfileNamed | MarsNote/MainWindow.xaml.cs:253-260 | selects the first profile with the name, if any |
| Window.MainWindow.SelectFolderNamed | MarsNote/MainWindow.xaml.cs:269-277 | selects the first folder of the profile with the name, if any |
| Window.MainWindow.SetNewSaveFileLocationFromUI | MarsNote/MainWindow.xaml.cs:746-789 | Overwrite saves the profiles to the new directory's "mn-save.json", Load to the current save file; then, unless that threw, the settings on screen are written to the settings file |
| Window.MainWindow.SaveSettings | MarsNote/MainWindow.xaml.cs:760 | `uiSettings.Save()` is Write of the serialised settings to the settings file (AfterWrite), and changes no profile |
| Window.MainWindow.ChangeSaveFileLocation | MarsNote/MainWindow.xaml.cs:795-839 | a null path, the current path, or Cancel changes nothing; otherwise the text box takes the path and the relocation runs in RelocationMode's mode |
| Window.MainWindow.ChangeAutoSaveInterval | MarsNote/MainWindow.xaml.cs:83-88 | the timer stops, takes the interval, and runs again exactly when the interval is not 0; an interval the timer refuses leaves it stopped |
| Window.MainWindow.AutoSaveTick | MarsNote/MainWindow.xaml.cs:74-77 | a tick saves the open profiles to the save file |

## Left out

- The WPF and MahApps user interface is not modelled:
  - `UpdateMessages`, the `UILoad*` bindings, `UILoadSettings`, window position, accent and theme changes, About and Help.
  - The selection-changed handlers. In the program, selecting a profile also reloads the folder list (selecting its first folder) and saves the profiles (MarsNote/MainWindow.xaml.cs:309-318). In the model a selection changes only the selected item.
  - Selecting the new note in the notes list after `AddNote`.
- Dialogs and `async` are not modelled. Every answer is a parameter. The message shown when a moved folder's name clashes, and the restart message, are not modelled.
- `AppHelper.RestartApplication`, which runs after a relocation, is not modelled. Neither is `ShutdownApplication`, which runs on a load error.
- The window's startup sequence (MarsNote/MainWindow.xaml.cs:26-70) and closing (153-161) are not modelled as wholes. Their steps are modelled separately: loading, first launch, restoring the state, setting the timer and saving. `Window.MainWindow.constructor` only takes that state as parameters.
- State.cs is not part of this model. `UILoadState` takes the saved profile and folder names; a null state is both None.
- `DeleteFolder` (MarsNote/MainWindow.xaml.cs:562-597) and note deletion (352-370) are not modelled. They remove items through the list boxes' item sources, which are UI state.
- Newtonsoft serialisation is not modelled; it is the functions `encode` and `decode`.
  - `SaveOutcome`: the exception a failed clone throws is recorded as the JSON constructor's `ArgumentNullException("name")`. Whether the serialiser wraps that exception is not modelled.
- The brush hex converter named at MarsNote/Note.cs:147 is not modelled; colours are modelled only as ARGB values.
- `Note.ColorColour` and `Note.MoveFolders` (MarsNote/Note.cs:75-83, 178-189) are helpers for the UI and are not modelled.
- Hierarchy.Note.SetColour: the source also writes the opaque colour back into the brush it was given, and a brush that is not a `SolidColorBrush` would fail the cast. The model has only solid colours held by value.
- Name comparison: the culture-sensitive default comparer is the parameter `compare`, assumed to be a total preorder. Name checks use exact string equality, as the code's `==` does.
- Paths are exact strings. Roots (`\`, `X:`, `X:\` and UNC `\\server\share`) are modelled as the .NET Framework's Path.GetRootLength finds them. Not modelled:
  - normalisation, case-insensitivity and invalid characters, which the .NET path functions check or apply;
  - the trimming of trailing separators and spaces by Directory.CreateDirectory: the directory set holds the prefixes as written;
  - I/O and access errors of `File` and `Directory`.
- Null collections: the `Folder.Notes` and `Profile.Folders` setters accept null (MarsNote/Folder.cs:66-69, MarsNote/Profile.cs:62-65), and `UILoadState` returns early when the selected profile's `Folders` is null (MarsNote/MainWindow.xaml.cs:264-267). The model keeps these collections as `seq` fields, so `SetNotes`, `SetFolders` and `UILoadState` cannot model null. No path of the core stores null there: the constructors replace a null list with an empty one.
- Config.Settings.Load: `AppHelper.IsInCurrentUserStartup` (the registry) is the parameter `inStartup`, assumed not to throw. In the source, a registry failure also falls back to `BlankSettings`.
- `Environment.GetFolderPath(ApplicationData)` is the parameter `appData`.
- Not modelled because they hold no logic: `StartupFileLocation`, `LicenseURL`, `ReadAllLines`, and `BrowseForFolder`, whose chosen folder is the `path` parameter of `ChangeSaveFileLocation`. `HelpURL` and `GitHubIssuesURL` are used by the window but not defined in FileHelper.cs.
- The `DispatcherTimer` is reduced to a running flag and an interval in milliseconds. A tick is the method `AutoSaveTick`; the timer framework itself is not modelled.
- `ObservableCollection` change events are not modelled. The `PropertyChanged` events of notes, folders and profiles are modelled as the `raised` log.
- Filtering the accent list ("Yellow" excluded) is a UI list filter and is not modelled.
- The always-on-top setting is dropped: Settings.cs has no such property.
