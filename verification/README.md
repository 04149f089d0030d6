# Folder hierarchy: a Dafny model

This project models the core of the Go package `folder`. The package keeps a
multi-tenant folder hierarchy. Each folder has a name, a materialized
dot-path (`alpha.bravo.charlie`) and an owning organisation. The model covers
the driver's name-and-organisation index, the ancestry test on paths, the two
read-only queries, and the move of a folder together with its subtree. It
also proves properties of each of these.

Modules, one per source file, plus the test tables:

- `Folders` (`folders.dfy`) models `folder/folder.go`. It holds the `Folder`
  record, `OrgId`, the error variants, the driver and its index (`BuildIndex`),
  and `NewDriver`.
- `Queries` (`queries.dfy`) models `folder/get_folder.go`. It holds
  `IsChildFolder`, the order-preserving filter, `GetFoldersByOrgID` and
  `GetAllChildFolders`.
- `Moves` (`moves.dfy`) models `folder/move_folder.go`. It holds `MoveFolder`:
  the validation gates, the copy-on-write rewrite, and the rebase of the
  descendants.
- `Scenarios` (`scenarios.dfy`) restates rows of the package's test tables
  (folder/get_folder_test.go, folder/move_folder_test.go) as concrete lemmas.
  It also holds concrete lemmas for corner cases of the code that no test row
  covers.

Modelling choices:

- `OrgId` is the 128-bit value of a UUID. `NilOrg` is the all-zero UUID.
- The index is keyed by the pair `Key(name, orgId)`. The source keys it by
  `name + orgID.String()`. Because a UUID's text form always has 36
  characters, that string is injective, so both keys pick out the same entries.
- Errors are a `Result` with one `FolderError` variant per `fmt.Errorf` site.
  Variants whose message embeds a name carry that name.
- Everything is an immutable value. `MoveFolder` returns a new sequence, so
  the driver's own snapshot cannot change.
- The pointers `sourceFolder` and `destFolder` become positions in the
  snapshot.

Quirks of the code as written:

- `MoveFolder(x, x)` fails with the self-move error only when a folder named
  `x` exists. Otherwise it fails with source-not-found, because the two
  lookups (folder/move_folder.go:13-34) run before the name comparison
  (line 37).
- Both lookups in `MoveFolder` take the first folder with the name, in any
  organisation. `GetAllChildFolders` uses the index instead, where the last
  duplicate wins.
- The rebase loop does not check organisations. A folder of another
  organisation whose path lies below the source is rebased too
  (`Scenarios.MoveRebasesOtherOrganisation`).
- The rebase loop reads the copy after the source entry has already been
  rewritten. The comment at folder/move_folder.go:51 says the original path
  is held "before changing it", which points to matching against the paths
  as they were before the move. See "Findings".
- Positions are preserved: output position `i` is input position `i`.

## Model

| member | source | states |
|---|---|---|
| Folders.BuildIndex | folder/folder.go:29-33 | the index's keys are exactly the (name, org) pairs of the snapshot; each entry holds a folder of the snapshot with exactly its key; when several folders share a key, the entry is the last of them in snapshot order |
| Folders.NewDriver | folder/folder.go:29-39 | the driver keeps the input sequence unchanged, and its loop builds exactly the last-write-wins index |
| Folders.IndexCoversSnapshot | folder/folder.go:30-33 | a key is in the index iff some folder of the snapshot has that name and organisation |
| Queries.ChildFolderIff | folder/get_folder.go:63-68 | a path is a child iff it is longer, starts with the parent path, and has a '.' right after it; the equality test is subsumed |
| Queries.ChildFolderIsExtension | folder/get_folder.go:63-68 | a path is a child iff it equals the parent path, a dot, and some suffix |
| Queries.ChildFolderIrreflexive | folder/get_folder.go:64-66 | no path is its own child |
| Queries.ChildFolderAsymmetric | folder/get_folder.go:67 | if a is a child of b then b is not a child of a |
| Queries.ChildFolderTransitive | folder/get_folder.go:63-68 | a child of a child is a child |
| Queries.ChildFolderUnderCommonPrefix | folder/get_folder.go:67 | putting the same text in front of two paths does not change whether one is a child of the other |
| Queries.BarePrefixIsNotChild | folder/get_folder.go:67 | `alphabet` is not a child of `alpha`, and `alpha.bet` is |
| Queries.Filter | folder/get_folder.go:46-52 | the append-if-matching loop yields exactly the input elements the predicate accepts |
| Queries.FilterKeepsExactly | folder/get_folder.go:16-21 | the loop's result is a subsequence of the input holding every accepted occurrence and nothing else |
| Queries.KeepsExactlyIsFilter | folder/get_folder.go:46-52 | any order-preserving subsequence holding exactly the accepted occurrences equals the loop's result |
| Queries.FilterConcat | folder/get_folder.go:47-52 | filtering `a + b` gives the filter of `a` followed by the filter of `b`, so snapshot order is kept |
| Queries.GetFoldersByOrgID | folder/get_folder.go:13-23 | the result is the order-preserving subsequence of the snapshot with orgId equal to the argument |
| Queries.GetAllChildFolders | folder/get_folder.go:28-60 | a nil org gives the invalid-orgID error before the name is looked at; an empty name gives the invalid-name error; a (name, org) pair missing from the index gives not-found carrying the name; otherwise the result is the order-preserving subsequence of snapshot folders of that org whose path is a child of the indexed parent's path, possibly empty |
| Queries.GetAllChildFoldersOnSnapshot | folder/get_folder.go:38-52 | on a driver from NewDriver, the parent is the last snapshot folder with that name and org, and the children are taken relative to its path |
| Queries.MissingFolderOnSnapshot | folder/get_folder.go:39-43 | on a driver from NewDriver, not-found happens iff no folder has that name in that org; the same name in another org does not count |
| Queries.ChildFoldersExcludeParent | folder/get_folder.go:46-59 | the result never holds the parent or a folder of another org, and it is an empty success when nothing lies below |
| Queries.RebasedChild | folder/move_folder.go:71-75 | replacing the old ancestor part of a descendant path by a new prefix gives a child of the new prefix with the same relative suffix |
| Queries.RebasePreservesAncestry | folder/move_folder.go:70-77 | for two paths below the old source path, the child relation between them is unchanged by rebasing |
| Moves.FirstNamed | folder/move_folder.go:13-19 | the lookup returns the first position holding the name, in any org, or none exactly when no folder has it |
| Moves.FirstNamedAt | folder/move_folder.go:14-19 | the first position holding the name is what the lookup returns |
| Moves.ResolveMove | folder/move_folder.go:12-49 | when the gates pass, the positions are the first matches for the source name and the destination name |
| Moves.RebaseSubtree | folder/move_folder.go:55-77 | the rewritten copy has the snapshot's length, and every position keeps its name and org |
| Moves.MoveFolder | folder/move_folder.go:11-80 | source-not-found iff no folder has the source name; destination-not-found iff the source exists and no folder has the destination name; self-move iff both exist and the names are equal; on success, the same length with names and orgs kept position by position |
| Moves.MoveFolderGates | folder/move_folder.go:41-49 | once both exist under different names, differing orgs give the cross-org error; the same org with the destination below the source gives the child-of-itself error; otherwise the move succeeds |
| Moves.MoveFolderPlacesSource | folder/move_folder.go:59-77 | the source ends at `dst.Paths + "." + src.Name` iff that path does not itself lie below the source's original path; when it does, the source ends at that path followed by the part of it after the original path |
| Moves.MoveFolderRebasesDescendants | folder/move_folder.go:70-77 | every other folder below the original source path, in any org, becomes the new source path followed by its old suffix, and so lies below the new source path |
| Moves.MoveFolderKeepsOthers | folder/move_folder.go:62-77 | folders that are neither the source nor below its original path are returned unchanged, the destination included |
| Moves.MoveFolderKeepsSubtreeShape | folder/move_folder.go:70-77 | among the moved descendants, one is a child of another after the move iff it was before |
| Moves.RebaseFromSnapshot | folder/move_folder.go:51-77 | corrected rewrite: the source gets exactly the new path, descendants of the original path are rebased with their suffix kept, and all others are unchanged |
| Moves.MoveFolderFromSnapshot | folder/move_folder.go:11-80 | corrected move: it fails exactly as MoveFolder does, and on success the source gets exactly `dst.Paths + "." + src.Name` |
| Moves.MoveFolderMatchesSnapshotRewrite | folder/move_folder.go:62-77 | the as-written and corrected moves agree whenever the new source path does not lie below the original one |
| Scenarios.ChildFoldersOfAlpha | folder/get_folder_test.go:141-158 | the descendants of `alpha` in org A are bravo, charlie and delta, in that order |
| Scenarios.ChildFoldersArgumentChecks | folder/get_folder.go:31-36 | the nil-org check comes before the empty-name check on any snapshot |
| Scenarios.ChildFoldersSameNameTwoOrgs | folder/get_folder_test.go:159-171 | with `alpha` in org A and in org B, the children of org A's `alpha` are only `bravo`; org B's `alpha` is neither the parent nor a child |
| Scenarios.ChildFoldersWrongOrg | folder/get_folder_test.go:110-118 | `alpha` in org A is not found when asked for in org B |
| Scenarios.MoveBravoBelowDelta | folder/move_folder_test.go:74-96 | moving bravo below delta gives `alpha.delta.bravo` and `alpha.delta.bravo.charlie`, and leaves the rest unchanged |
| Scenarios.MoveBravoBelowGolf | folder/move_folder_test.go:97-120 | moving bravo below golf gives `golf.bravo` and `golf.bravo.charlie`, and leaves the rest unchanged |
| Scenarios.MoveNestedSubtree | folder/move_folder_test.go:121-145 | moving bravo below delta carries the grandchild along: `alpha.delta.bravo.charlie.beta`; the rest is unchanged |
| Scenarios.MoveGateScenarios | folder/move_folder_test.go:21-72 | the five error rows of the move test table |
| Scenarios.SelfMoveOfMissingFolder | folder/move_folder.go:20-39 | `MoveFolder(x, x)` on an empty snapshot is source-not-found, not self-move |
| Scenarios.MoveRebasesOtherOrganisation | folder/move_folder.go:70-77 | a folder of another org below the source path is rebased |
| Scenarios.SourceRewrittenTwice | folder/move_folder.go:62-77 | with two folders at path `x`, moving `a` below `b` puts `a` at `x.a.a`; the corrected move puts it at `x.a` |

## Left out

- `GetAllFolders` and `GetSampleData` (folder/get_folder.go:9-11): a sample-data loader whose source is not part of this model.
- The UUID library: parsing, `String()`, and the byte layout of `uuid.Nil`. Only equality and the nil value matter to the package.
- The text of the error messages. Each message is one `FolderError` variant; the comments in `folders.dfy` give the text.
- The slice returned alongside an error. `GetAllChildFolders` returns `[]Folder{}` and `MoveFolder` returns `nil`; the model returns only the error.
- The difference between a nil and an empty Go slice. Both are the empty sequence.
- The `IDriver` interface and method dispatch.
- Pointer aliasing into the driver's slice. The pointers are only read, so they become positions.
- A mutable store and concurrency. Every operation is a pure function of the driver value.
- Queries.IsChildFolder and Moves.Rebased: paths are sequences of characters, while Go's `len`, indexing and slicing at folder/get_folder.go:67 and folder/move_folder.go:73 work on bytes. On valid UTF-8 the two agree, because the byte of `'.'` never occurs inside a multi-byte character. Byte strings that are not valid UTF-8 cannot be represented.

## Findings

| source | as written | input that shows it | evidently intended | confidence | as-written member | corrected member |
|---|---|---|---|---|---|---|
| folder/move_folder.go:70-77 | the descendant loop tests entries of the copy after the source entry has been rewritten at lines 62-67, so the source is rebased a second time when its new path lies below its original path | one org, folders `a` at path `x` and `b` at path `x`; `MoveFolder("a", "b")` returns `a` at `x.a.a` | the source lands at `x.a`. Lines 51-52 save the original path before the rewrite, with a comment saying it is held before the path changes; the descendant test at line 71 compares against that saved path, so it is meant to select the folders that lay below the source before the move | low: needs two folders sharing one path (or a name containing a dot); not executed | Moves.MoveFolder (shown by Scenarios.SourceRewrittenTwice) | Moves.MoveFolderFromSnapshot (with Moves.RebaseFromSnapshot; Moves.MoveFolderMatchesSnapshotRewrite shows the two agree on every other input) |
