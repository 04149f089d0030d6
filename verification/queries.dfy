/** Path ancestry and the two read-only queries of the driver
    (folder/get_folder.go). */
module Queries {
  import opened Folders

  // ---------------------------------------------------------------------
  // Materialized-path ancestry
  // ---------------------------------------------------------------------

  /** `childPath` lies strictly below `parentPath`: it starts with it and the
      next character is the separator. */
  predicate IsChildFolder(childPath: string, parentPath: string) {
    if parentPath == childPath then false
    else
      && |childPath| > |parentPath|
      && childPath[|parentPath|] == '.'
      && childPath[..|parentPath|] == parentPath
  }

  /** The path one level (or more, when `rest` holds dots) below `parentPath`. */
  function Extend(parentPath: string, rest: string): (p: string)
    ensures |p| == |parentPath| + 1 + |rest|
    ensures p[..|parentPath|] == parentPath && p[|parentPath|] == '.'
    ensures p[|parentPath| + 1..] == rest
  {
    parentPath + "." + rest
  }

  /** The separator test makes the equality test redundant: a child is
      exactly a longer path that starts with the parent and continues with a
      dot. */
  lemma ChildFolderIff(childPath: string, parentPath: string)
    ensures IsChildFolder(childPath, parentPath)
        <==> && |childPath| > |parentPath|
             && childPath[..|parentPath|] == parentPath
             && childPath[|parentPath|] == '.'
  {
  }

  /** A child path is the parent path extended by a separator and a suffix. */
  lemma ChildFolderIsExtension(childPath: string, parentPath: string)
    ensures IsChildFolder(childPath, parentPath)
        <==> exists rest :: childPath == Extend(parentPath, rest)
  {
    if IsChildFolder(childPath, parentPath) {
      var rest := childPath[|parentPath| + 1..];
      assert childPath == Extend(parentPath, rest);
    }
    if exists rest :: childPath == Extend(parentPath, rest) {
      var rest :| childPath == Extend(parentPath, rest);
      assert |childPath| > |parentPath|;
    }
  }

  /** No path is its own child. */
  lemma ChildFolderIrreflexive(path: string)
    ensures !IsChildFolder(path, path)
  {
  }

  /** Ancestry runs one way only. */
  lemma ChildFolderAsymmetric(a: string, b: string)
    ensures IsChildFolder(a, b) ==> !IsChildFolder(b, a)
  {
  }

  /** A child of a child is a child. */
  lemma ChildFolderTransitive(a: string, b: string, c: string)
    requires IsChildFolder(a, b) && IsChildFolder(b, c)
    ensures IsChildFolder(a, c)
  {
    assert a[..|c|] == a[..|b|][..|c|];
    assert a[|c|] == a[..|b|][|c|];
  }

  /** A common leading part does not change ancestry. */
  lemma ChildFolderUnderCommonPrefix(x: string, u: string, v: string)
    ensures IsChildFolder(x + u, x + v) <==> IsChildFolder(u, v)
  {
    ChildFolderIff(x + u, x + v);
    ChildFolderIff(u, v);
    if |u| > |v| {
      assert (x + u)[..|x + v|] == x + u[..|v|];
      assert (x + u)[|x + v|] == u[|v|];
      if (x + u)[..|x + v|] == x + v {
        assert u[..|v|] == (x + u[..|v|])[|x|..];
      }
    }
  }

  /** Replacing the ancestor part of two paths below the same ancestor keeps
      the ancestry between them. */
  lemma RebasePreservesAncestry(a: string, b: string, oldPath: string, newPath: string)
    requires IsChildFolder(a, oldPath) && IsChildFolder(b, oldPath)
    ensures IsChildFolder(a, b) <==> IsChildFolder(newPath + a[|oldPath|..], newPath + b[|oldPath|..])
  {
    assert a == oldPath + a[|oldPath|..];
    assert b == oldPath + b[|oldPath|..];
    ChildFolderUnderCommonPrefix(oldPath, a[|oldPath|..], b[|oldPath|..]);
    ChildFolderUnderCommonPrefix(newPath, a[|oldPath|..], b[|oldPath|..]);
  }

  /** Replacing the ancestor part of a path below `oldPath` by `newPath`
      yields a path below `newPath` with the same relative suffix. */
  lemma RebasedChild(child: string, oldPath: string, newPath: string)
    requires IsChildFolder(child, oldPath)
    ensures IsChildFolder(newPath + child[|oldPath|..], newPath)
    ensures (newPath + child[|oldPath|..])[|newPath|..] == child[|oldPath|..]
  {
    var p := newPath + child[|oldPath|..];
    assert p[..|newPath|] == newPath;
    assert p[|newPath|] == child[|oldPath|];
  }

  /** A bare textual prefix is not an ancestor. */
  lemma BarePrefixIsNotChild()
    ensures !IsChildFolder("alphabet", "alpha")
    ensures IsChildFolder("alpha.bet", "alpha")
  {
    assert "alphabet"[5] == 'b';
    assert "alpha.bet"[..5] == "alpha";
  }

  // ---------------------------------------------------------------------
  // Order-preserving filters
  // ---------------------------------------------------------------------

  /** `a` can be obtained from `b` by deleting elements. */
  ghost predicate IsSubsequence(a: seq<Folder>, b: seq<Folder>)
    decreases |b|
  {
    if a == [] then true
    else if b == [] then false
    else (a[0] == b[0] && IsSubsequence(a[1..], b[1..])) || IsSubsequence(a, b[1..])
  }

  /** `r` is `s` with exactly the elements `keep` rejects deleted: a
      subsequence of `s` holding every kept occurrence and nothing else. */
  ghost predicate KeepsExactly(r: seq<Folder>, s: seq<Folder>, keep: Folder -> bool) {
    && IsSubsequence(r, s)
    && forall f :: multiset(r)[f] == (if keep(f) then multiset(s)[f] else 0)
  }

  /** The append-if-matching loop shared by both queries. */
  function Filter(s: seq<Folder>, keep: Folder -> bool): (r: seq<Folder>)
    ensures forall f :: f in r <==> f in s && keep(f)
  {
    if s == [] then []
    else if keep(s[0]) then [s[0]] + Filter(s[1..], keep)
    else Filter(s[1..], keep)
  }

  /** `Filter` keeps exactly the accepted elements, in order. */
  lemma {:induction false} FilterKeepsExactly(s: seq<Folder>, keep: Folder -> bool)
    ensures KeepsExactly(Filter(s, keep), s, keep)
    decreases |s|
  {
    if s != [] {
      FilterKeepsExactly(s[1..], keep);
      var r := Filter(s, keep);
      assert s == [s[0]] + s[1..];
      if keep(s[0]) {
        assert r == [s[0]] + Filter(s[1..], keep);
        assert r[1..] == Filter(s[1..], keep);
      }
    }
  }

  lemma {:induction false} SubsequenceCounts(a: seq<Folder>, b: seq<Folder>)
    requires IsSubsequence(a, b)
    ensures multiset(a) <= multiset(b)
    decreases |b|
  {
    if a == [] {
    } else if a[0] == b[0] && IsSubsequence(a[1..], b[1..]) {
      SubsequenceCounts(a[1..], b[1..]);
      assert a == [a[0]] + a[1..];
      assert b == [b[0]] + b[1..];
    } else {
      SubsequenceCounts(a, b[1..]);
      assert b == [b[0]] + b[1..];
    }
  }

  /** The filter contract determines the result: any sequence that keeps
      exactly the accepted elements of `s`, in order, is `Filter(s, keep)`. */
  lemma {:induction false} KeepsExactlyIsFilter(r: seq<Folder>, s: seq<Folder>, keep: Folder -> bool)
    requires KeepsExactly(r, s, keep)
    ensures r == Filter(s, keep)
    decreases |s|
  {
    if s == [] {
    } else {
      var x := s[0];
      assert s == [x] + s[1..];
      if r == [] {
        if keep(x) {
          assert false;
        }
        KeepsExactlyIsFilter(r, s[1..], keep);
      } else if r[0] == x && IsSubsequence(r[1..], s[1..]) {
        assert r == [x] + r[1..];
        if !keep(x) {
          assert false;
        }
        forall f ensures multiset(r[1..])[f] == (if keep(f) then multiset(s[1..])[f] else 0) {
          assert multiset(r)[f] == multiset([x])[f] + multiset(r[1..])[f];
          assert multiset(s)[f] == multiset([x])[f] + multiset(s[1..])[f];
        }
        KeepsExactlyIsFilter(r[1..], s[1..], keep);
      } else {
        assert IsSubsequence(r, s[1..]);
        SubsequenceCounts(r, s[1..]);
        if keep(x) {
          assert false;
        }
        forall f ensures multiset(r)[f] == (if keep(f) then multiset(s[1..])[f] else 0) {
          assert multiset(s)[f] == multiset([x])[f] + multiset(s[1..])[f];
        }
        KeepsExactlyIsFilter(r, s[1..], keep);
      }
    }
  }

  /** Filtering a concatenation filters each part in turn: the order of the
      snapshot carries over to the result. */
  lemma {:induction false} FilterConcat(a: seq<Folder>, b: seq<Folder>, keep: Folder -> bool)
    ensures Filter(a + b, keep) == Filter(a, keep) + Filter(b, keep)
    decreases |a|
  {
    if a == [] {
      assert a + b == b;
    } else {
      assert (a + b)[1..] == a[1..] + b;
      FilterConcat(a[1..], b, keep);
    }
  }

  // ---------------------------------------------------------------------
  // The queries
  // ---------------------------------------------------------------------

  /** Selects the folders of one organisation. */
  function InOrg(orgId: OrgId): Folder -> bool {
    (f: Folder) => f.orgId == orgId
  }

  /** Selects the folders of one organisation lying strictly below a path. */
  function BelowIn(parentPath: string, orgId: OrgId): Folder -> bool {
    (f: Folder) => IsChildFolder(f.paths, parentPath) && f.orgId == orgId
  }

  /** All folders of one organisation, in snapshot order. */
  function GetFoldersByOrgID(d: Driver, orgId: OrgId): (r: seq<Folder>)
    ensures forall f :: f in r <==> f in d.folders && f.orgId == orgId
    ensures KeepsExactly(r, d.folders, InOrg(orgId))
  {
    FilterKeepsExactly(d.folders, InOrg(orgId));
    Filter(d.folders, InOrg(orgId))
  }

  /** The strict descendants of folder `name` of organisation `orgId` that
      belong to that organisation, in snapshot order. The arguments are
      checked first (nil organisation before empty name), then the folder is
      looked up in the index. */
  function GetAllChildFolders(d: Driver, orgId: OrgId, name: string): (r: Result<seq<Folder>>)
    ensures orgId == NilOrg ==> r == Err(InvalidOrgId)
    ensures orgId != NilOrg && name == "" ==> r == Err(InvalidName)
    ensures r == Err(FolderNotFound(name))
        <==> orgId != NilOrg && name != "" && Key(name, orgId) !in d.folderMap
    ensures r.Ok? <==> orgId != NilOrg && name != "" && Key(name, orgId) in d.folderMap
    ensures r.Ok? ==>
      var parent := d.folderMap[Key(name, orgId)];
      && KeepsExactly(r.value, d.folders, BelowIn(parent.paths, orgId))
      && forall f :: f in r.value <==>
           f in d.folders && IsChildFolder(f.paths, parent.paths) && f.orgId == orgId
  {
    if orgId == NilOrg then Err(InvalidOrgId)
    else if name == "" then Err(InvalidName)
    else if Key(name, orgId) !in d.folderMap then Err(FolderNotFound(name))
    else
      var parent := d.folderMap[Key(name, orgId)];
      FilterKeepsExactly(d.folders, BelowIn(parent.paths, orgId));
      Ok(Filter(d.folders, BelowIn(parent.paths, orgId)))
  }

  /** On a driver built by `NewDriver`: the folder is missing exactly when no
      folder of the snapshot has that name in that organisation (a folder of
      the same name elsewhere does not help), and the parent is the last
      folder of the snapshot with that name and organisation. */
  lemma GetAllChildFoldersOnSnapshot(folders: seq<Folder>, orgId: OrgId, name: string, i: int)
    requires orgId != NilOrg && name != ""
    requires LastWithKey(folders, i) && KeyOf(folders[i]) == Key(name, orgId)
    ensures GetAllChildFolders(Snapshot(folders), orgId, name).Ok?
    ensures forall f :: f in GetAllChildFolders(Snapshot(folders), orgId, name).value <==>
              f in folders && IsChildFolder(f.paths, folders[i].paths) && f.orgId == orgId
  {
  }

  lemma MissingFolderOnSnapshot(folders: seq<Folder>, orgId: OrgId, name: string)
    ensures GetAllChildFolders(Snapshot(folders), orgId, name) == Err(FolderNotFound(name))
        <==> && orgId != NilOrg && name != ""
             && forall j :: 0 <= j < |folders| ==> KeyOf(folders[j]) != Key(name, orgId)
  {
    IndexCoversSnapshot(folders, Key(name, orgId));
  }

  /** The result never holds the parent itself, nor a folder of another
      organisation, and it is empty (not an error) when nothing lies below. */
  lemma ChildFoldersExcludeParent(d: Driver, orgId: OrgId, name: string)
    requires GetAllChildFolders(d, orgId, name).Ok?
    ensures d.folderMap[Key(name, orgId)] !in GetAllChildFolders(d, orgId, name).value
    ensures forall f :: f in GetAllChildFolders(d, orgId, name).value ==> f.orgId == orgId
    ensures (forall f :: f in d.folders && f.orgId == orgId ==>
               !IsChildFolder(f.paths, d.folderMap[Key(name, orgId)].paths))
        ==> GetAllChildFolders(d, orgId, name) == Ok([])
  {
    var r := GetAllChildFolders(d, orgId, name).value;
    if r != [] {
      assert r[0] in r;
    }
  }
}
