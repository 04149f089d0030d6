/** The data model of the folder package and the driver built over a snapshot
    of folders: the folder record, the organisation identifier, the errors the
    operations report, and the name-and-organisation index that `NewDriver`
    precomputes (folder/folder.go). */
module Folders {

  /** Number of distinct UUIDs: a UUID is 128 bits wide. */
  const UUID_SPACE: int := 0x1_0000_0000_0000_0000_0000_0000_0000_0000

  /** An organisation identifier. Only equality and the nil UUID matter to the
      package, so a UUID is its 128-bit value. */
  type OrgId = u: int | 0 <= u < UUID_SPACE

  /** The nil UUID (all 128 bits zero). */
  const NilOrg: OrgId := 0

  /** A folder: its name, its materialized dot-path and its owning organisation. */
  datatype Folder = Folder(name: string, paths: string, orgId: OrgId)

  /** Index key. The source concatenates the name with the 36-character
      textual form of the UUID; that concatenation is injective, so the pair
      identifies the same entries. */
  datatype Key = Key(name: string, orgId: OrgId)

  function KeyOf(f: Folder): Key {
    Key(f.name, f.orgId)
  }

  /** One variant per error the operations report; the ones whose message
      embeds a folder name carry it. */
  datatype FolderError =
    | InvalidOrgId                  // "invalid orgID: orgID cannot be nil"
    | InvalidName                   // "invalid name: folder name cannot be empty"
    | FolderNotFound(name: string)  // "folder '<name>' does not exist in the specified organization"
    | SourceNotFound(name: string)  // "source folder '<name>' does not exist"
    | DestinationNotFound(name: string)  // "destination folder '<name>' does not exist"
    | MoveToSelf                    // "cannot move a folder to itself"
    | MoveAcrossOrgs                // "cannot move a folder to a different organization"
    | MoveIntoChild                 // "cannot move a folder to a child of itself"

  datatype Result<T> = Ok(value: T) | Err(error: FolderError)

  datatype Option<T> = None | Some(value: T)

  /** The driver: the snapshot it was built from and the index over it. */
  datatype Driver = Driver(folders: seq<Folder>, folderMap: map<Key, Folder>)

  /** Position `i` holds the last folder of the snapshot with its key. */
  ghost predicate LastWithKey(folders: seq<Folder>, i: int) {
    && 0 <= i < |folders|
    && forall j :: i < j < |folders| ==> KeyOf(folders[j]) != KeyOf(folders[i])
  }

  /** The index `NewDriver` builds: one entry per key present in the
      snapshot, each holding a folder with exactly that key, and the last
      folder in snapshot order when several share a key. */
  function BuildIndex(folders: seq<Folder>): (m: map<Key, Folder>)
    ensures m.Keys == set f | f in folders :: KeyOf(f)
    ensures forall k :: k in m ==> KeyOf(m[k]) == k && m[k] in folders
    ensures forall i :: LastWithKey(folders, i) ==> m[KeyOf(folders[i])] == folders[i]
    decreases |folders|
  {
    if folders == [] then map[]
    else
      var init := folders[..|folders| - 1];
      var last := folders[|folders| - 1];
      assert folders == init + [last];
      assert forall i :: LastWithKey(folders, i) && i < |init| ==> LastWithKey(init, i);
      BuildIndex(init)[KeyOf(last) := last]
  }

  /** A driver as `NewDriver` leaves it: the index is the one built over the
      snapshot it holds. */
  ghost predicate Valid(d: Driver) {
    d.folderMap == BuildIndex(d.folders)
  }

  /** The driver `NewDriver` builds over `folders`, as a value. */
  function Snapshot(folders: seq<Folder>): (d: Driver)
    ensures Valid(d) && d.folders == folders
  {
    Driver(folders, BuildIndex(folders))
  }

  /** The constructor: keeps the snapshot as given and fills the index in
      snapshot order, so a later duplicate overwrites an earlier one. */
  method NewDriver(folders: seq<Folder>) returns (d: Driver)
    ensures d.folders == folders
    ensures d.folderMap == BuildIndex(folders)
  {
    var folderMap: map<Key, Folder> := map[];
    for i := 0 to |folders|
      invariant folderMap == BuildIndex(folders[..i])
    {
      assert folders[..i + 1][..i] == folders[..i];
      folderMap := folderMap[KeyOf(folders[i]) := folders[i]];
    }
    assert folders[..|folders|] == folders;
    d := Driver(folders, folderMap);
  }

  /** Every folder of the snapshot can be found in the index under its own
      name and organisation, and the index holds nothing else. */
  lemma IndexCoversSnapshot(folders: seq<Folder>, k: Key)
    ensures k in BuildIndex(folders) <==> exists i :: 0 <= i < |folders| && KeyOf(folders[i]) == k
  {
    var m := BuildIndex(folders);
    if k in m {
      var i :| 0 <= i < |folders| && folders[i] == m[k];
      assert KeyOf(folders[i]) == k;
    }
  }
}
