/** The package's test tables (folder/get_folder_test.go,
    folder/move_folder_test.go) and the corner cases of the move, as
    concrete lemmas over the model. */
module Scenarios {
  import opened Folders
  import opened Queries
  import opened Moves

  const OrgA: OrgId := 0xa1234567_b7c0_45a3_a6ae_9546248fb17a
  const OrgB: OrgId := 0xb1234567_b7c0_45a3_a6ae_9546248fb17b

  /** The snapshot of "Valid child folders - multiple". */
  function AlphaTree(): seq<Folder> {
    [ Folder("alpha", "alpha", OrgA), Folder("bravo", "alpha.bravo", OrgA)
    , Folder("charlie", "alpha.bravo.charlie", OrgA), Folder("delta", "alpha.delta", OrgA)
    , Folder("echo", "echo", OrgA), Folder("foxtrot", "foxtrot", OrgB) ]
  }

  lemma AlphaRootIsLast()
    ensures LastWithKey(AlphaTree(), 0)
  {
    var fs := AlphaTree();
    assert fs[1].name[0] != 'a';
    assert fs[2].name[0] != 'a';
    assert fs[3].name[0] != 'a';
    assert fs[4].name[0] != 'a';
    assert fs[5].name[0] != 'a';
  }

  lemma AlphaParent(d: Driver)
    requires Valid(d) && d.folders == AlphaTree()
    ensures Key("alpha", OrgA) in d.folderMap && d.folderMap[Key("alpha", OrgA)] == AlphaTree()[0]
  {
    AlphaRootIsLast();
    assert KeyOf(AlphaTree()[0]) == Key("alpha", OrgA);
  }

  lemma AlphaKeeps()
    ensures var fs := AlphaTree(); var keep := BelowIn("alpha", OrgA);
      !keep(fs[0]) && keep(fs[1]) && keep(fs[2]) && keep(fs[3]) && !keep(fs[4]) && !keep(fs[5])
  {
    assert "alpha.bravo"[..5] == "alpha";
    assert "alpha.bravo.charlie"[..5] == "alpha";
    assert "alpha.delta"[..5] == "alpha";
  }

  lemma AlphaFilter()
    ensures Filter(AlphaTree(), BelowIn("alpha", OrgA)) == [AlphaTree()[1], AlphaTree()[2], AlphaTree()[3]]
  {
    var fs := AlphaTree();
    var keep := BelowIn("alpha", OrgA);
    AlphaKeeps();
    assert fs[5..][1..] == [];
    assert Filter(fs[5..], keep) == [];
    assert fs[4..][1..] == fs[5..];
    assert Filter(fs[4..], keep) == [];
    assert fs[3..][1..] == fs[4..];
    assert Filter(fs[3..], keep) == [fs[3]];
    assert fs[2..][1..] == fs[3..];
    assert Filter(fs[2..], keep) == [fs[2], fs[3]];
    assert fs[1..][1..] == fs[2..];
    assert Filter(fs[1..], keep) == [fs[1], fs[2], fs[3]];
  }

  /** "Valid child folders - multiple": the descendants of `alpha` in org A,
      in snapshot order; an unrelated root and another organisation's folder
      are left out. */
  lemma ChildFoldersOfAlpha(d: Driver)
    requires Valid(d) && d.folders == AlphaTree()
    ensures GetAllChildFolders(d, OrgA, "alpha")
         == Ok([AlphaTree()[1], AlphaTree()[2], AlphaTree()[3]])
  {
    AlphaParent(d);
    AlphaFilter();
  }

  /** The argument checks come first: nil organisation, then empty name. */
  lemma ChildFoldersArgumentChecks(fs: seq<Folder>)
    ensures GetAllChildFolders(Snapshot(fs), NilOrg, "") == Err(InvalidOrgId)
    ensures GetAllChildFolders(Snapshot(fs), OrgA, "") == Err(InvalidName)
  {
  }

  /** "Valid name but orgID doesn't exist": a folder of that name in another
      organisation does not count. */
  lemma ChildFoldersWrongOrg()
    ensures GetAllChildFolders(Snapshot([Folder("alpha", "alpha", OrgA)]), OrgB, "alpha")
         == Err(FolderNotFound("alpha"))
  {
    MissingFolderOnSnapshot([Folder("alpha", "alpha", OrgA)], OrgB, "alpha");
  }

  /** The snapshot of "Multiple folders with same name in different
      organizations". */
  function TwoOrgTree(): seq<Folder> {
    [ Folder("alpha", "alpha", OrgA), Folder("alpha", "alpha2", OrgB)
    , Folder("bravo", "alpha.bravo", OrgA) ]
  }

  lemma TwoOrgFilter()
    ensures Filter(TwoOrgTree(), BelowIn("alpha", OrgA)) == [TwoOrgTree()[2]]
  {
    var fs := TwoOrgTree();
    var keep := BelowIn("alpha", OrgA);
    assert "alpha.bravo"[..5] == "alpha";
    assert keep(fs[2]) && !keep(fs[1]) && !keep(fs[0]);
    assert fs[2..][1..] == [];
    assert Filter(fs[2..], keep) == [fs[2]];
    assert fs[1..][1..] == fs[2..];
    assert Filter(fs[1..], keep) == [fs[2]];
  }

  /** "Multiple folders with same name in different organizations": the
      `alpha` of org B neither serves as the parent nor shows up among the
      children of org A's `alpha`. */
  lemma ChildFoldersSameNameTwoOrgs(d: Driver)
    requires Valid(d) && d.folders == TwoOrgTree()
    ensures GetAllChildFolders(d, OrgA, "alpha") == Ok([TwoOrgTree()[2]])
  {
    var fs := TwoOrgTree();
    assert LastWithKey(fs, 0) by {
      assert KeyOf(fs[1]) != KeyOf(fs[0]);
      assert fs[2].name[0] != 'a';
    }
    assert d.folderMap[Key("alpha", OrgA)] == fs[0];
    TwoOrgFilter();
  }

  /** The snapshot of "valid example 1". */
  function MoveTree(): seq<Folder> {
    [ Folder("alpha", "alpha", OrgA), Folder("bravo", "alpha.bravo", OrgA)
    , Folder("charlie", "alpha.bravo.charlie", OrgA), Folder("delta", "alpha.delta", OrgA)
    , Folder("echo", "alpha.delta.echo", OrgA), Folder("foxtrot", "foxtrot", OrgB)
    , Folder("golf", "golf", OrgA) ]
  }

  /** How each path of the "valid example 1" snapshot fares in the
      descendant loop for old path `alpha.bravo`. */
  lemma MoveTreeRebased()
    ensures var fs := MoveTree(); var op := "alpha.bravo"; var np := "alpha.delta.bravo";
      && Rebased(fs[1].(paths := np), op, np) == Folder("bravo", np, OrgA)
      && Rebased(fs[2], op, np) == Folder("charlie", "alpha.delta.bravo.charlie", OrgA)
      && Rebased(fs[0], op, np) == fs[0] && Rebased(fs[3], op, np) == fs[3]
      && Rebased(fs[4], op, np) == fs[4] && Rebased(fs[5], op, np) == fs[5]
      && Rebased(fs[6], op, np) == fs[6]
  {
    assert "alpha.bravo.charlie"[..11] == "alpha.bravo";
    assert "alpha.bravo.charlie"[11..] == ".charlie";
    assert "alpha.delta.echo"[6] != "alpha.bravo"[6];
    assert "alpha.delta.bravo"[6] != "alpha.bravo"[6];
  }

  lemma MoveTreeRewrite()
    ensures RebaseSubtree(MoveTree(), MoveTree()[1], "alpha.delta.bravo")
         == [ MoveTree()[0], Folder("bravo", "alpha.delta.bravo", OrgA)
            , Folder("charlie", "alpha.delta.bravo.charlie", OrgA)
            , MoveTree()[3], MoveTree()[4], MoveTree()[5], MoveTree()[6] ]
  {
    var fs := MoveTree();
    var np := "alpha.delta.bravo";
    MoveTreeFirstBravo();
    MoveTreeRebased();
    var r := RebaseSubtree(fs, fs[1], np);
    RebaseSubtreeAt(fs, 1, np, 0);
    assert r[0] == fs[0];
    RebaseSubtreeAt(fs, 1, np, 1);
    assert r[1] == Folder("bravo", np, OrgA);
    RebaseSubtreeAt(fs, 1, np, 2);
    assert r[2] == Folder("charlie", "alpha.delta.bravo.charlie", OrgA);
    RebaseSubtreeAt(fs, 1, np, 3);
    assert r[3] == fs[3];
    RebaseSubtreeAt(fs, 1, np, 4);
    assert r[4] == fs[4];
    RebaseSubtreeAt(fs, 1, np, 5);
    assert r[5] == fs[5];
    RebaseSubtreeAt(fs, 1, np, 6);
    assert r[6] == fs[6];
    assert |r| == 7;
  }

  lemma MoveTreeFirstBravo()
    ensures FirstNamed(MoveTree(), "bravo") == Some(1)
  {
    assert MoveTree()[0].name[0] != "bravo"[0];
    FirstNamedAt(MoveTree(), "bravo", 1);
  }

  lemma MoveTreeFirstDelta()
    ensures FirstNamed(MoveTree(), "delta") == Some(3)
  {
    var fs := MoveTree();
    assert fs[0].name[0] != "delta"[0];
    assert fs[1].name[0] != "delta"[0];
    assert fs[2].name[0] != "delta"[0];
    FirstNamedAt(fs, "delta", 3);
  }

  lemma MoveTreeNewPath()
    ensures NewSourcePath(MoveTree(), 1, 3) == "alpha.delta.bravo"
  {
  }

  lemma MoveTreeResolves()
    ensures ResolveMove(MoveTree(), "bravo", "delta") == Ok((1, 3))
  {
    MoveTreeFirstBravo();
    MoveTreeFirstDelta();
    assert "alpha.delta"[6] != "alpha.bravo"[6];
    assert !IsChildFolder("alpha.delta", "alpha.bravo");
  }

  /** "valid example 1": `bravo` and its child move below `delta`; every
      other folder is returned unchanged. The move reads only the snapshot, so
      any driver holding it will do. */
  lemma MoveBravoBelowDelta(d: Driver)
    requires d.folders == MoveTree()
    ensures MoveFolder(d, "bravo", "delta")
         == Ok([ MoveTree()[0], Folder("bravo", "alpha.delta.bravo", OrgA)
               , Folder("charlie", "alpha.delta.bravo.charlie", OrgA)
               , MoveTree()[3], MoveTree()[4], MoveTree()[5], MoveTree()[6] ])
  {
    MoveTreeResolves();
    MoveTreeNewPath();
    MoveTreeRewrite();
  }

  lemma MoveTreeFirstGolf()
    ensures FirstNamed(MoveTree(), "golf") == Some(6)
  {
    var fs := MoveTree();
    assert fs[0].name[0] != 'g' && fs[1].name[0] != 'g' && fs[2].name[0] != 'g';
    assert fs[3].name[0] != 'g' && fs[4].name[0] != 'g' && fs[5].name[0] != 'g';
    FirstNamedAt(fs, "golf", 6);
  }

  lemma MoveTreeGolfOutsideBravo(fs: seq<Folder>)
    requires fs == MoveTree()
    ensures !IsChildFolder(fs[6].paths, fs[1].paths)
  {
    assert |fs[6].paths| < |fs[1].paths|;
  }

  lemma MoveTreeResolvesGolf(fs: seq<Folder>)
    requires fs == MoveTree()
    ensures ResolveMove(fs, "bravo", "golf") == Ok((1, 6))
  {
    MoveTreeGolfOutsideBravo(fs);
    MoveTreeFirstBravo();
    MoveTreeFirstGolf();
    ResolvesTo(fs, "bravo", "golf", 1, 6);
  }

  lemma MoveTreeNewPathGolf()
    ensures NewSourcePath(MoveTree(), 1, 6) == "golf.bravo"
  {
  }

  /** How each path of the "valid example 1" snapshot fares in the
      descendant loop for old path `alpha.bravo` and new path `golf.bravo`. */
  lemma MoveTreeRebasedGolf()
    ensures var fs := MoveTree(); var op := "alpha.bravo"; var np := "golf.bravo";
      && Rebased(fs[1].(paths := np), op, np) == Folder("bravo", np, OrgA)
      && Rebased(fs[2], op, np) == Folder("charlie", "golf.bravo.charlie", OrgA)
      && Rebased(fs[0], op, np) == fs[0] && Rebased(fs[3], op, np) == fs[3]
      && Rebased(fs[4], op, np) == fs[4] && Rebased(fs[5], op, np) == fs[5]
      && Rebased(fs[6], op, np) == fs[6]
  {
    assert "alpha.bravo.charlie"[..11] == "alpha.bravo";
    assert "alpha.bravo.charlie"[11..] == ".charlie";
    assert "alpha.delta.echo"[6] != "alpha.bravo"[6];
    assert "golf.bravo"[0] != "alpha.bravo"[0];
  }

  lemma MoveTreeRewriteGolf()
    ensures RebaseSubtree(MoveTree(), MoveTree()[1], "golf.bravo")
         == [ MoveTree()[0], Folder("bravo", "golf.bravo", OrgA)
            , Folder("charlie", "golf.bravo.charlie", OrgA)
            , MoveTree()[3], MoveTree()[4], MoveTree()[5], MoveTree()[6] ]
  {
    var fs := MoveTree();
    var np := "golf.bravo";
    MoveTreeFirstBravo();
    MoveTreeRebasedGolf();
    var r := RebaseSubtree(fs, fs[1], np);
    RebaseSubtreeAt(fs, 1, np, 0);
    assert r[0] == fs[0];
    RebaseSubtreeAt(fs, 1, np, 1);
    assert r[1] == Folder("bravo", np, OrgA);
    RebaseSubtreeAt(fs, 1, np, 2);
    assert r[2] == Folder("charlie", "golf.bravo.charlie", OrgA);
    RebaseSubtreeAt(fs, 1, np, 3);
    assert r[3] == fs[3];
    RebaseSubtreeAt(fs, 1, np, 4);
    assert r[4] == fs[4];
    RebaseSubtreeAt(fs, 1, np, 5);
    assert r[5] == fs[5];
    RebaseSubtreeAt(fs, 1, np, 6);
    assert r[6] == fs[6];
    assert |r| == 7;
  }

  /** "valid example 2": `bravo` and its child move to a new root-level
      parent, `golf`. */
  lemma MoveBravoBelowGolf(d: Driver)
    requires d.folders == MoveTree()
    ensures MoveFolder(d, "bravo", "golf")
         == Ok([ MoveTree()[0], Folder("bravo", "golf.bravo", OrgA)
               , Folder("charlie", "golf.bravo.charlie", OrgA)
               , MoveTree()[3], MoveTree()[4], MoveTree()[5], MoveTree()[6] ])
  {
    MoveTreeResolvesGolf(d.folders);
    MoveTreeNewPathGolf();
    MoveTreeRewriteGolf();
  }

  /** The snapshot of "valid example 1" with `beta` below `charlie`. */
  function NestedTree(): seq<Folder> {
    [ Folder("alpha", "alpha", OrgA), Folder("bravo", "alpha.bravo", OrgA)
    , Folder("charlie", "alpha.bravo.charlie", OrgA), Folder("beta", "alpha.bravo.charlie.beta", OrgA)
    , Folder("delta", "alpha.delta", OrgA), Folder("echo", "alpha.delta.echo", OrgA)
    , Folder("foxtrot", "foxtrot", OrgB), Folder("golf", "golf", OrgA) ]
  }

  lemma NestedTreeFirstBravo()
    ensures FirstNamed(NestedTree(), "bravo") == Some(1)
  {
    assert NestedTree()[0].name[0] != 'b';
    FirstNamedAt(NestedTree(), "bravo", 1);
  }

  lemma NestedTreeFirstDelta()
    ensures FirstNamed(NestedTree(), "delta") == Some(4)
  {
    var fs := NestedTree();
    assert fs[0].name[0] != 'd' && fs[1].name[0] != 'd' && fs[2].name[0] != 'd' && fs[3].name[0] != 'd';
    FirstNamedAt(fs, "delta", 4);
  }

  lemma NestedTreeNewPath()
    ensures NewSourcePath(NestedTree(), 1, 4) == "alpha.delta.bravo"
  {
  }

  lemma NestedTreeDeltaOutsideBravo(fs: seq<Folder>)
    requires fs == NestedTree()
    ensures !IsChildFolder(fs[4].paths, fs[1].paths)
  {
    assert fs[4].paths[6] != fs[1].paths[6];
  }

  lemma NestedTreeResolves(fs: seq<Folder>)
    requires fs == NestedTree()
    ensures ResolveMove(fs, "bravo", "delta") == Ok((1, 4))
  {
    NestedTreeDeltaOutsideBravo(fs);
    NestedTreeFirstBravo();
    NestedTreeFirstDelta();
    ResolvesTo(fs, "bravo", "delta", 1, 4);
  }

  lemma NestedTreeRebasedBelow()
    ensures var fs := NestedTree(); var op := "alpha.bravo"; var np := "alpha.delta.bravo";
      && Rebased(fs[1].(paths := np), op, np) == Folder("bravo", np, OrgA)
      && Rebased(fs[2], op, np) == Folder("charlie", "alpha.delta.bravo.charlie", OrgA)
      && Rebased(fs[3], op, np) == Folder("beta", "alpha.delta.bravo.charlie.beta", OrgA)
  {
    assert "alpha.bravo.charlie"[..11] == "alpha.bravo";
    assert "alpha.bravo.charlie"[11..] == ".charlie";
    assert "alpha.bravo.charlie.beta"[..11] == "alpha.bravo";
    assert "alpha.bravo.charlie.beta"[11..] == ".charlie.beta";
    assert "alpha.delta.bravo"[6] != "alpha.bravo"[6];
  }

  lemma NestedTreeRebasedOthers()
    ensures var fs := NestedTree(); var op := "alpha.bravo"; var np := "alpha.delta.bravo";
      && Rebased(fs[0], op, np) == fs[0] && Rebased(fs[4], op, np) == fs[4]
      && Rebased(fs[5], op, np) == fs[5] && Rebased(fs[6], op, np) == fs[6]
      && Rebased(fs[7], op, np) == fs[7]
  {
    assert "alpha.delta"[6] != "alpha.bravo"[6];
    assert "alpha.delta.echo"[6] != "alpha.bravo"[6];
  }

  lemma NestedTreeRewrite()
    ensures RebaseSubtree(NestedTree(), NestedTree()[1], "alpha.delta.bravo")
         == [ NestedTree()[0], Folder("bravo", "alpha.delta.bravo", OrgA)
            , Folder("charlie", "alpha.delta.bravo.charlie", OrgA)
            , Folder("beta", "alpha.delta.bravo.charlie.beta", OrgA)
            , NestedTree()[4], NestedTree()[5], NestedTree()[6], NestedTree()[7] ]
  {
    var fs := NestedTree();
    var np := "alpha.delta.bravo";
    NestedTreeFirstBravo();
    NestedTreeRebasedBelow();
    NestedTreeRebasedOthers();
    var r := RebaseSubtree(fs, fs[1], np);
    RebaseSubtreeAt(fs, 1, np, 0);
    assert r[0] == fs[0];
    RebaseSubtreeAt(fs, 1, np, 1);
    assert r[1] == Folder("bravo", np, OrgA);
    RebaseSubtreeAt(fs, 1, np, 2);
    assert r[2] == Folder("charlie", "alpha.delta.bravo.charlie", OrgA);
    RebaseSubtreeAt(fs, 1, np, 3);
    assert r[3] == Folder("beta", "alpha.delta.bravo.charlie.beta", OrgA);
    RebaseSubtreeAt(fs, 1, np, 4);
    assert r[4] == fs[4];
    RebaseSubtreeAt(fs, 1, np, 5);
    assert r[5] == fs[5];
    RebaseSubtreeAt(fs, 1, np, 6);
    assert r[6] == fs[6];
    RebaseSubtreeAt(fs, 1, np, 7);
    assert r[7] == fs[7];
    assert |r| == 8;
  }

  /** "valid example with nested folder": the whole subtree, grandchild
      included, moves below `delta`. */
  lemma MoveNestedSubtree(d: Driver)
    requires d.folders == NestedTree()
    ensures MoveFolder(d, "bravo", "delta")
         == Ok([ NestedTree()[0], Folder("bravo", "alpha.delta.bravo", OrgA)
               , Folder("charlie", "alpha.delta.bravo.charlie", OrgA)
               , Folder("beta", "alpha.delta.bravo.charlie.beta", OrgA)
               , NestedTree()[4], NestedTree()[5], NestedTree()[6], NestedTree()[7] ])
  {
    NestedTreeResolves(d.folders);
    NestedTreeNewPath();
    NestedTreeRewrite();
  }

  /** The move gates of the test table, in order. */
  lemma MoveGateScenarios(d1: Driver, d2: Driver, d3: Driver)
    requires d1.folders == [Folder("bravo", "bravo", OrgA)]
    requires d2.folders == [Folder("bravo", "bravo", OrgA), Folder("golf", "golf", OrgB)]
    requires d3.folders == [Folder("bravo", "bravo", OrgA), Folder("charlie", "bravo.charlie", OrgA)]
    ensures MoveFolder(d1, "nonexistent", "bravo") == Err(SourceNotFound("nonexistent"))
    ensures MoveFolder(d1, "bravo", "nonexistent") == Err(DestinationNotFound("nonexistent"))
    ensures MoveFolder(d1, "bravo", "bravo") == Err(MoveToSelf)
    ensures MoveFolder(d2, "bravo", "golf") == Err(MoveAcrossOrgs)
    ensures MoveFolder(d3, "bravo", "charlie") == Err(MoveIntoChild)
  {
    assert d1.folders[0].name == "bravo";
    FirstNamedAt(d2.folders, "bravo", 0);
    FirstNamedAt(d2.folders, "golf", 1);
    MoveFolderGates(d2, "bravo", "golf", 0, 1);
    FirstNamedAt(d3.folders, "bravo", 0);
    FirstNamedAt(d3.folders, "charlie", 1);
    assert "bravo.charlie"[..5] == "bravo";
    MoveFolderGates(d3, "bravo", "charlie", 0, 1);
  }

  /** A self-move is reported only once the folder is known to exist. */
  lemma SelfMoveOfMissingFolder(d: Driver)
    requires d.folders == []
    ensures MoveFolder(d, "x", "x") == Err(SourceNotFound("x"))
  {
  }

  /** Two roots of org A and, below `bravo`, a folder of org B. */
  function CrossOrgTree(): seq<Folder>
  {
    [ Folder("bravo", "bravo", OrgA), Folder("golf", "golf", OrgA)
    , Folder("kilo", "bravo.kilo", OrgB) ]
  }

  lemma CrossOrgResolves()
    ensures FirstNamed(CrossOrgTree(), "bravo") == Some(0)
    ensures FirstNamed(CrossOrgTree(), "golf") == Some(1)
    ensures ResolveMove(CrossOrgTree(), "bravo", "golf") == Ok((0, 1))
    ensures NewSourcePath(CrossOrgTree(), 0, 1) == "golf.bravo"
  {
    var fs := CrossOrgTree();
    FirstNamedAt(fs, "bravo", 0);
    assert fs[0].name[0] != fs[1].name[0];
    FirstNamedAt(fs, "golf", 1);
    assert !IsChildFolder(fs[1].paths, fs[0].paths) by {
      assert fs[1].paths[0] != fs[0].paths[0];
    }
  }

  lemma CrossOrgRewrite()
    ensures RebaseSubtree(CrossOrgTree(), CrossOrgTree()[0], "golf.bravo")
         == [ Folder("bravo", "golf.bravo", OrgA), CrossOrgTree()[1], Folder("kilo", "golf.bravo.kilo", OrgB) ]
  {
    var fs := CrossOrgTree();
    var np := "golf.bravo";
    var r := RebaseSubtree(fs, fs[0], np);
    CrossOrgResolves();
    assert "bravo.kilo"[..5] == "bravo";
    assert "bravo.kilo"[5..] == ".kilo";
    RebaseSubtreeAt(fs, 0, np, 0);
    RebaseSubtreeAt(fs, 0, np, 1);
    RebaseSubtreeAt(fs, 0, np, 2);
    assert r[0] == Folder("bravo", "golf.bravo", OrgA);
    assert r[1] == fs[1] by {
      assert fs[1].paths[0] != fs[0].paths[0];
    }
    assert r[2] == Folder("kilo", "golf.bravo.kilo", OrgB);
  }

  /** The rebase loop has no organisation check: `kilo` belongs to org B but
      lies below `bravo`, so moving `bravo` (org A) rebases it as well. */
  lemma MoveRebasesOtherOrganisation(d: Driver)
    requires d.folders == CrossOrgTree()
    ensures MoveFolder(d, "bravo", "golf")
         == Ok([ Folder("bravo", "golf.bravo", OrgA), d.folders[1], Folder("kilo", "golf.bravo.kilo", OrgB) ])
  {
    CrossOrgResolves();
    CrossOrgRewrite();
  }

  /** When the destination shares the source's path, the new source path
      lies below the old one and the source entry is rewritten twice:
      `a` lands at `x.a.a` instead of `x.a`. Matching against the snapshot
      before the move puts it at `x.a`. */
  lemma SourceRewrittenTwice(d: Driver)
    requires d.folders == [Folder("a", "x", OrgA), Folder("b", "x", OrgA)]
    ensures MoveFolder(d, "a", "b") == Ok([Folder("a", "x.a.a", OrgA), d.folders[1]])
    ensures MoveFolderFromSnapshot(d, "a", "b") == Ok([Folder("a", "x.a", OrgA), d.folders[1]])
  {
    var fs := d.folders;
    FirstNamedAt(fs, "a", 0);
    FirstNamedAt(fs, "b", 1);
    MoveFolderGates(d, "a", "b", 0, 1);
    MoveFolderIsRewrite(d, "a", "b", 0, 1);
    var np := NewSourcePath(fs, 0, 1);
    assert np == "x.a";
    assert "x.a"[..1] == "x";
    assert "x.a"[1..] == ".a";
    var r := MoveFolder(d, "a", "b").value;
    RebaseSubtreeAt(fs, 0, np, 0);
    RebaseSubtreeAt(fs, 0, np, 1);
    assert r[0] == Folder("a", "x.a.a", OrgA);
    assert r[1] == fs[1];
    assert r == [Folder("a", "x.a.a", OrgA), fs[1]];
    var q := MoveFolderFromSnapshot(d, "a", "b").value;
    assert q == RebaseFromSnapshot(fs, 0, np);
    assert q == [Folder("a", "x.a", OrgA), fs[1]];
  }
}
