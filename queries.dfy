/** ExtensionMethods: read-only membership searches over the profile list.  The
    collections' Contains compares references, as Note and Folder do not override
    Equals. */
module Queries {
  import opened Hierarchy

  /** ContainsFolder: whether some profile's folder list holds `folder`. */
  function ContainsFolder(profiles: seq<Profile>, folder: Folder): (r: bool)
    reads profiles
    ensures r <==> exists i :: 0 <= i < |profiles| && folder in profiles[i].folders
  {
    if profiles == [] then false
    else if folder in profiles[0].folders then true
    else ContainsFolder(profiles[1..], folder)
  }

  /** ContainsNote: whether some folder of some profile holds `note`. */
  function ContainsNote(profiles: seq<Profile>, note: Note): (r: bool)
    reads profiles, FoldersOf(profiles)
    ensures r <==> exists i, j :: 0 <= i < |profiles| && 0 <= j < |profiles[i].folders| && note in profiles[i].folders[j].notes
  {
    if profiles == [] then false
    else
      assert forall f :: f in profiles[0].folders ==> f in FoldersOf(profiles);
      if InFolders(profiles[0].folders, note) then true
      else ContainsNote(profiles[1..], note)
  }

  /** The inner loop of ContainsNote: whether some folder of the list holds `note`. */
  function InFolders(folders: seq<Folder>, note: Note): (r: bool)
    reads folders
    ensures r <==> exists j :: 0 <= j < |folders| && note in folders[j].notes
  {
    if folders == [] then false
    else if note in folders[0].notes then true
    else InFolders(folders[1..], note)
  }

  /** A note found is in a folder found: the two searches agree. */
  lemma NoteInContainedFolder(profiles: seq<Profile>, folder: Folder, note: Note)
    requires ContainsFolder(profiles, folder) && note in folder.notes
    ensures ContainsNote(profiles, note)
  {
    var i :| 0 <= i < |profiles| && folder in profiles[i].folders;
    var j :| 0 <= j < |profiles[i].folders| && profiles[i].folders[j] == folder;
  }
}
