/** Moving a folder and its subtree below another folder
    (folder/move_folder.go). */
module Moves {
  import opened Folders
  import opened Queries

  /** Position of the first folder named `name`, whatever its organisation. */
  function FirstNamed(fs: seq<Folder>, name: string): (r: Option<nat>)
    ensures r.Some? ==> r.value < |fs| && fs[r.value].name == name
    ensures r.Some? ==> forall j :: 0 <= j < r.value ==> fs[j].name != name
    ensures r.None? <==> forall j :: 0 <= j < |fs| ==> fs[j].name != name
  {
    if fs == [] then None
    else if fs[0].name == name then Some(0)
    else match FirstNamed(fs[1..], name)
      case None => None
      case Some(i) => Some(i + 1)
  }

  /** The first match is the first position holding the name. */
  lemma {:induction false} FirstNamedAt(fs: seq<Folder>, name: string, i: nat)
    requires i < |fs| && fs[i].name == name
    requires forall j :: 0 <= j < i ==> fs[j].name != name
    ensures FirstNamed(fs, name) == Some(i)
  {
    if i > 0 {
      FirstNamedAt(fs[1..], name, i - 1);
    }
  }

  /** The validation gates, in the source's order: source lookup,
      destination lookup, self-move, organisation check, cycle check. On
      success, the positions of the source and of the destination. */
  function ResolveMove(fs: seq<Folder>, name: string, dst: string): (r: Result<(nat, nat)>)
    ensures r.Ok? ==> FirstNamed(fs, name) == Some(r.value.0) && FirstNamed(fs, dst) == Some(r.value.1)
  {
    match FirstNamed(fs, name)
    case None => Err(SourceNotFound(name))
    case Some(s) =>
      match FirstNamed(fs, dst)
      case None => Err(DestinationNotFound(dst))
      case Some(t) =>
        if name == dst then Err(MoveToSelf)
        else if fs[s].orgId != fs[t].orgId then Err(MoveAcrossOrgs)
        else if IsChildFolder(fs[t].paths, fs[s].paths) then Err(MoveIntoChild)
        else Ok((s, t))
  }

  /** The gates pass exactly at the first matches once the names differ, the
      organisations agree and the destination is not below the source. */
  lemma ResolvesTo(fs: seq<Folder>, name: string, dst: string, s: nat, t: nat)
    requires FirstNamed(fs, name) == Some(s) && FirstNamed(fs, dst) == Some(t)
    requires name != dst && fs[s].orgId == fs[t].orgId && !IsChildFolder(fs[t].paths, fs[s].paths)
    ensures ResolveMove(fs, name, dst) == Ok((s, t))
  {
  }

  /** One step of the descendant loop: a folder below `oldPath` keeps its
      part after `oldPath` and gets `newPath` in front of it; any other folder
      is left alone. The organisation is not consulted. */
  function Rebased(f: Folder, oldPath: string, newPath: string): Folder {
    if IsChildFolder(f.paths, oldPath) then f.(paths := newPath + f.paths[|oldPath|..]) else f
  }

  /** The rewrite as the source performs it on its copy of the snapshot: the
      first folder named like the source gets `newPath`, then every entry of
      the copy (the rewritten one included) that lies below the source's
      original path is rebased. */
  function RebaseSubtree(fs: seq<Folder>, src: Folder, newPath: string): (r: seq<Folder>)
    ensures |r| == |fs|
    ensures forall i :: 0 <= i < |fs| ==> r[i].name == fs[i].name && r[i].orgId == fs[i].orgId
  {
    var placed :=
      match FirstNamed(fs, src.name)
      case Some(k) => fs[k := fs[k].(paths := newPath)]
      case None => fs;
    seq(|placed|, i requires 0 <= i < |placed| => Rebased(placed[i], src.paths, newPath))
  }

  /** Entry by entry, when the source sits at position `s`: the source is
      placed and then goes through the descendant test like every other
      entry. */
  lemma RebaseSubtreeAt(fs: seq<Folder>, s: nat, newPath: string, i: nat)
    requires s < |fs| && FirstNamed(fs, fs[s].name) == Some(s) && i < |fs|
    ensures RebaseSubtree(fs, fs[s], newPath)[i]
         == Rebased(if i == s then fs[s].(paths := newPath) else fs[i], fs[s].paths, newPath)
  {
  }

  /** The path the source receives: the destination's path, a dot, the
      source's name. */
  function NewSourcePath(fs: seq<Folder>, s: nat, t: nat): string
    requires s < |fs| && t < |fs|
  {
    Extend(fs[t].paths, fs[s].name)
  }

  /** `MoveFolder(name, dst)`: moves the first folder named `name` below the
      first folder named `dst`, returning a new snapshot. */
  function MoveFolder(d: Driver, name: string, dst: string): (r: Result<seq<Folder>>)
    ensures r == Err(SourceNotFound(name)) <==> forall i :: 0 <= i < |d.folders| ==> d.folders[i].name != name
    ensures r == Err(DestinationNotFound(dst))
        <==> && (exists i :: 0 <= i < |d.folders| && d.folders[i].name == name)
             && forall j :: 0 <= j < |d.folders| ==> d.folders[j].name != dst
    ensures r == Err(MoveToSelf) <==> name == dst && exists i :: 0 <= i < |d.folders| && d.folders[i].name == name
    ensures r.Ok? ==> name != dst && |r.value| == |d.folders|
    ensures r.Ok? ==> forall i :: 0 <= i < |d.folders| ==>
              r.value[i].name == d.folders[i].name && r.value[i].orgId == d.folders[i].orgId
  {
    match ResolveMove(d.folders, name, dst)
    case Err(e) => Err(e)
    case Ok((s, t)) =>
      Ok(RebaseSubtree(d.folders, d.folders[s], NewSourcePath(d.folders, s, t)))
  }

  /** A successful move is the rewrite of the snapshot around the first
      folders named `name` and `dst`. */
  lemma MoveFolderIsRewrite(d: Driver, name: string, dst: string, s: nat, t: nat)
    requires FirstNamed(d.folders, name) == Some(s) && FirstNamed(d.folders, dst) == Some(t)
    requires MoveFolder(d, name, dst).Ok?
    ensures ResolveMove(d.folders, name, dst) == Ok((s, t))
    ensures FirstNamed(d.folders, d.folders[s].name) == Some(s)
    ensures MoveFolder(d, name, dst).value == RebaseSubtree(d.folders, d.folders[s], NewSourcePath(d.folders, s, t))
  {
  }

  /** Once both folders exist under different names, the organisation check
      comes before the cycle check, and passing both means success. */
  lemma MoveFolderGates(d: Driver, name: string, dst: string, s: nat, t: nat)
    requires FirstNamed(d.folders, name) == Some(s) && FirstNamed(d.folders, dst) == Some(t)
    requires name != dst
    ensures MoveFolder(d, name, dst) == Err(MoveAcrossOrgs) <==> d.folders[s].orgId != d.folders[t].orgId
    ensures MoveFolder(d, name, dst) == Err(MoveIntoChild)
        <==> d.folders[s].orgId == d.folders[t].orgId && IsChildFolder(d.folders[t].paths, d.folders[s].paths)
    ensures MoveFolder(d, name, dst).Ok?
        <==> d.folders[s].orgId == d.folders[t].orgId && !IsChildFolder(d.folders[t].paths, d.folders[s].paths)
  {
  }

  /** The source ends up at `dst.Paths + "." + src.Name` exactly when that
      new path does not itself lie below the source's original path;
      otherwise the descendant loop rewrites it a second time, appending the
      part of the new path that lies after the original path. */
  lemma MoveFolderPlacesSource(d: Driver, name: string, dst: string, s: nat, t: nat)
    requires FirstNamed(d.folders, name) == Some(s) && FirstNamed(d.folders, dst) == Some(t)
    requires MoveFolder(d, name, dst).Ok?
    ensures MoveFolder(d, name, dst).value[s].paths == NewSourcePath(d.folders, s, t)
        <==> !IsChildFolder(NewSourcePath(d.folders, s, t), d.folders[s].paths)
    ensures IsChildFolder(NewSourcePath(d.folders, s, t), d.folders[s].paths) ==>
      var np := NewSourcePath(d.folders, s, t);
      MoveFolder(d, name, dst).value[s].paths == np + np[|d.folders[s].paths|..]
  {
    var np := NewSourcePath(d.folders, s, t);
    var op := d.folders[s].paths;
    MoveFolderIsRewrite(d, name, dst, s, t);
    RebaseSubtreeAt(d.folders, s, np, s);
    if IsChildFolder(np, op) {
      assert |MoveFolder(d, name, dst).value[s].paths| > |np|;
    }
  }

  /** Every other folder below the source's original path, whatever its
      organisation, keeps its suffix after that path and ends up below the
      source's new path. */
  lemma MoveFolderRebasesDescendants(d: Driver, name: string, dst: string, s: nat, t: nat, i: nat)
    requires FirstNamed(d.folders, name) == Some(s) && FirstNamed(d.folders, dst) == Some(t)
    requires MoveFolder(d, name, dst).Ok?
    requires i < |d.folders| && i != s && IsChildFolder(d.folders[i].paths, d.folders[s].paths)
    ensures MoveFolder(d, name, dst).value[i].paths
         == NewSourcePath(d.folders, s, t) + d.folders[i].paths[|d.folders[s].paths|..]
    ensures IsChildFolder(MoveFolder(d, name, dst).value[i].paths, NewSourcePath(d.folders, s, t))
  {
    MoveFolderIsRewrite(d, name, dst, s, t);
    RebaseSubtreeAt(d.folders, s, NewSourcePath(d.folders, s, t), i);
    RebasedChild(d.folders[i].paths, d.folders[s].paths, NewSourcePath(d.folders, s, t));
  }

  /** Folders that are neither the source nor below its original path are
      returned unchanged; the destination is one of them. */
  lemma MoveFolderKeepsOthers(d: Driver, name: string, dst: string, s: nat, t: nat, i: nat)
    requires FirstNamed(d.folders, name) == Some(s) && FirstNamed(d.folders, dst) == Some(t)
    requires MoveFolder(d, name, dst).Ok?
    requires i < |d.folders| && i != s && !IsChildFolder(d.folders[i].paths, d.folders[s].paths)
    ensures MoveFolder(d, name, dst).value[i] == d.folders[i]
    ensures MoveFolder(d, name, dst).value[t] == d.folders[t]
  {
    MoveFolderIsRewrite(d, name, dst, s, t);
    RebaseSubtreeAt(d.folders, s, NewSourcePath(d.folders, s, t), i);
    RebaseSubtreeAt(d.folders, s, NewSourcePath(d.folders, s, t), t);
  }

  /** Within the moved subtree the ancestry between folders is unchanged. */
  lemma MoveFolderKeepsSubtreeShape(d: Driver, name: string, dst: string, s: nat, t: nat, i: nat, j: nat)
    requires ResolveMove(d.folders, name, dst) == Ok((s, t))
    requires i < |d.folders| && i != s && IsChildFolder(d.folders[i].paths, d.folders[s].paths)
    requires j < |d.folders| && j != s && IsChildFolder(d.folders[j].paths, d.folders[s].paths)
    ensures IsChildFolder(MoveFolder(d, name, dst).value[i].paths, MoveFolder(d, name, dst).value[j].paths)
        <==> IsChildFolder(d.folders[i].paths, d.folders[j].paths)
  {
    MoveFolderRebasesDescendants(d, name, dst, s, t, i);
    MoveFolderRebasesDescendants(d, name, dst, s, t, j);
    RebasePreservesAncestry(d.folders[i].paths, d.folders[j].paths, d.folders[s].paths, NewSourcePath(d.folders, s, t));
  }

  // ---------------------------------------------------------------------
  // Matching descendants against the snapshot before the source is moved
  // ---------------------------------------------------------------------

  /** The rewrite with every descendant test made against the snapshot as it
      was before the move: the source gets `newPath` once, every other folder
      below the source's path is rebased. */
  function RebaseFromSnapshot(fs: seq<Folder>, s: nat, newPath: string): (r: seq<Folder>)
    requires s < |fs|
    ensures |r| == |fs| && r[s] == fs[s].(paths := newPath)
    ensures forall i :: 0 <= i < |fs| && i != s ==>
              && r[i].name == fs[i].name && r[i].orgId == fs[i].orgId
              && (IsChildFolder(fs[i].paths, fs[s].paths) ==>
                    r[i].paths == newPath + fs[i].paths[|fs[s].paths|..] && IsChildFolder(r[i].paths, newPath))
              && (!IsChildFolder(fs[i].paths, fs[s].paths) ==> r[i] == fs[i])
  {
    var r := seq(|fs|, i requires 0 <= i < |fs| =>
                   if i == s then fs[s].(paths := newPath) else Rebased(fs[i], fs[s].paths, newPath));
    forall i | 0 <= i < |fs| && i != s && IsChildFolder(fs[i].paths, fs[s].paths)
      ensures IsChildFolder(r[i].paths, newPath)
    {
      RebasedChild(fs[i].paths, fs[s].paths, newPath);
    }
    r
  }

  /** `MoveFolder` with the descendant test made against the snapshot before
      the move: the source always lands at `dst.Paths + "." + src.Name`. */
  function MoveFolderFromSnapshot(d: Driver, name: string, dst: string): (r: Result<seq<Folder>>)
    ensures r.Err? ==> r == MoveFolder(d, name, dst)
    ensures r.Ok? <==> MoveFolder(d, name, dst).Ok?
    ensures r.Ok? ==> |r.value| == |d.folders|
    ensures r.Ok? ==>
      var (s, t) := ResolveMove(d.folders, name, dst).value;
      r.value[s].paths == NewSourcePath(d.folders, s, t)
  {
    match ResolveMove(d.folders, name, dst)
    case Err(e) => Err(e)
    case Ok((s, t)) => Ok(RebaseFromSnapshot(d.folders, s, NewSourcePath(d.folders, s, t)))
  }

  /** The two rewrites agree whenever the new source path does not lie below
      the original one. */
  lemma MoveFolderMatchesSnapshotRewrite(d: Driver, name: string, dst: string, s: nat, t: nat)
    requires ResolveMove(d.folders, name, dst) == Ok((s, t))
    requires !IsChildFolder(NewSourcePath(d.folders, s, t), d.folders[s].paths)
    ensures MoveFolder(d, name, dst) == MoveFolderFromSnapshot(d, name, dst)
  {
    var np := NewSourcePath(d.folders, s, t);
    MoveFolderIsRewrite(d, name, dst, s, t);
    var a := RebaseSubtree(d.folders, d.folders[s], np);
    var b := RebaseFromSnapshot(d.folders, s, np);
    forall i | 0 <= i < |a| ensures a[i] == b[i] {
      RebaseSubtreeAt(d.folders, s, np, i);
    }
    assert a == b;
  }
}
