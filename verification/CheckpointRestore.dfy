/** Restoring a workspace to a checkpoint: the tree is collected recursively, sorted deepest first, cleaned in
  * place, and then `git restore` writes the checkpoint's files.
  *
  * Paths are component lists relative to the workspace root. Git is a parameter: the checkpoint is a map from paths
  * to contents, and `check-ignore` is a predicate on paths.
  */
module CheckpointRestore {
  import opened Wrappers

  type Path = seq<string>
  type Content = string

  const GIT_DIR := ".git"

  /** The contents of a workspace directory: files (anything that is not a directory) and directories. */
  datatype Tree = Tree(files: map<Path, Content>, dirs: set<Path>) {
    predicate Has(p: Path) {
      p in files || p in dirs
    }

    predicate HasChild(d: Path) {
      (exists p <- files.Keys :: |p| == |d| + 1 && d <= p) || (exists p <- dirs :: |p| == |d| + 1 && d <= p)
    }

    /** Nothing is both a file and a directory, the root is not listed, and every parent below the root is a
      * directory. */
    ghost predicate WellFormed() {
      && files.Keys !! dirs
      && !Has([])
      && forall p: Path, n: nat {:trigger p[..n]} | Has(p) && 0 < n < |p| :: p[..n] in dirs
    }
  }

  datatype Entry = Entry(path: Path, isDir: bool)

  // ---------- Collecting ----------

  /** Collection passes over `.git`, nested repositories and submodules. */
  predicate Skipped(t: Tree, gitlinks: set<Path>, p: Path) {
    p != [] && (p[|p| - 1] == GIT_DIR || (p in t.dirs && (t.Has(p + [GIT_DIR]) || p in gitlinks)))
  }

  /** `p` lies below `root` and neither it nor a directory on the way to it is passed over. */
  ghost predicate Collected(t: Tree, gitlinks: set<Path>, root: Path, p: Path) {
    && t.Has(p) && |root| < |p| && root <= p
    && forall n: nat {:trigger p[..n]} | |root| < n <= |p| :: !Skipped(t, gitlinks, p[..n])
  }

  ghost predicate Lists(entries: seq<Entry>, t: Tree, gitlinks: set<Path>, root: Path) {
    && (forall entry <- entries :: Collected(t, gitlinks, root, entry.path) && entry.isDir == (entry.path in t.dirs))
    && (forall p: Path | Collected(t, gitlinks, root, p) :: Entry(p, p in t.dirs) in entries)
  }

  function Children(t: Tree, root: Path): set<Path> {
    (set p | p in t.files && |p| == |root| + 1 && root <= p) + (set p | p in t.dirs && |p| == |root| + 1 && root <= p)
  }

  ghost function Below(t: Tree, root: Path): set<Path> {
    set p | p in t.files.Keys + t.dirs && |root| < |p| && root <= p
  }

  lemma BelowShrinks(t: Tree, root: Path, child: Path)
    requires child in Children(t, root)
    ensures |Below(t, child)| < |Below(t, root)|
  {
    assert child in Below(t, root) && child !in Below(t, child);
    forall p <- Below(t, child) ensures p in Below(t, root) {
      assert root == child[..|root|] == p[..|child|][..|root|] == p[..|root|];
    }
    assert Below(t, child) <= Below(t, root) - {child};
    SubsetSize(Below(t, child), Below(t, root) - {child});
  }

  ghost predicate CollectedThrough(t: Tree, gitlinks: set<Path>, root: Path, child: Path, p: Path) {
    && child in Children(t, root) && !Skipped(t, gitlinks, child)
    && (p == child || (child in t.dirs && Collected(t, gitlinks, child, p)))
  }

  /** Going through a child that is not passed over collects nothing new and loses nothing. */
  lemma CollectedThroughChild(t: Tree, gitlinks: set<Path>, root: Path, p: Path)
    requires t.WellFormed() && |root| < |p| && root <= p
    ensures Collected(t, gitlinks, root, p) <==> CollectedThrough(t, gitlinks, root, p[..|root| + 1], p)
  {
    var child := p[..|root| + 1];
    assert child[..|child|] == child;
    assert root <= child && child <= p;
    if Collected(t, gitlinks, root, p) {
      if p == child {
        assert p[..|p|] == p;
      } else {
        assert child in t.dirs;
      }
    }
    if child in Children(t, root) && !Skipped(t, gitlinks, child) && p == child {
      assert forall n: nat | |root| < n <= |p| :: p[..n] == child;
    }
  }

  method CollectWorkspaceEntries(t: Tree, gitlinks: set<Path>, root: Path) returns (entries: seq<Entry>)
    requires t.WellFormed()
    ensures Lists(entries, t, gitlinks, root)
    decreases |Below(t, root)|
  {
    entries := [];
    var unread := Children(t, root);
    forall p: Path | Collected(t, gitlinks, root, p) ensures p[..|root| + 1] in unread {
      CollectedThroughChild(t, gitlinks, root, p);
    }
    while unread != {}
      invariant unread <= Children(t, root)
      invariant forall entry <- entries ::
                  Collected(t, gitlinks, root, entry.path) && entry.isDir == (entry.path in t.dirs)
      invariant forall p: Path | Collected(t, gitlinks, root, p) && p[..|root| + 1] !in unread ::
                  Entry(p, p in t.dirs) in entries
      decreases |unread|
    {
      var child :| child in unread;
      if !Skipped(t, gitlinks, child) {
        var below := [];
        if child in t.dirs {
          BelowShrinks(t, root, child);
          below := CollectWorkspaceEntries(t, gitlinks, child);
        }
        OneChildListed(t, gitlinks, root, child, below);
        entries := entries + below + [Entry(child, child in t.dirs)];
      }
      forall p: Path | Collected(t, gitlinks, root, p) && p[..|root| + 1] !in unread - {child}
        ensures Entry(p, p in t.dirs) in entries
      {
        CollectedThroughChild(t, gitlinks, root, p);
        assert p[..|root| + 1] == child || p[..|root| + 1] !in unread;
      }
      unread := unread - {child};
    }
  }

  lemma OneChildListed(t: Tree, gitlinks: set<Path>, root: Path, child: Path, below: seq<Entry>)
    requires t.WellFormed() && child in Children(t, root) && !Skipped(t, gitlinks, child)
    requires if child in t.dirs then Lists(below, t, gitlinks, child) else below == []
    ensures var entries := below + [Entry(child, child in t.dirs)];
            && (forall entry <- entries ::
                  Collected(t, gitlinks, root, entry.path) && entry.isDir == (entry.path in t.dirs))
            && (forall p: Path | Collected(t, gitlinks, root, p) && p[..|root| + 1] == child ::
                  Entry(p, p in t.dirs) in entries)
  {
    var entries := below + [Entry(child, child in t.dirs)];
    assert child[..|root| + 1] == child;
    forall entry <- entries
      ensures Collected(t, gitlinks, root, entry.path) && entry.isDir == (entry.path in t.dirs)
    {
      var p := entry.path;
      if entry in below {
        assert root == child[..|root|] == p[..|child|][..|root|] == p[..|root|];
        assert p[..|root| + 1] == child;
      }
      CollectedThroughChild(t, gitlinks, root, p);
    }
    forall p: Path | Collected(t, gitlinks, root, p) && p[..|root| + 1] == child
      ensures Entry(p, p in t.dirs) in entries
    {
      CollectedThroughChild(t, gitlinks, root, p);
    }
  }

  // ---------- Sorting ----------

  ghost predicate DeepestFirst(entries: seq<Entry>) {
    forall i, j | 0 <= i < j < |entries| :: |entries[i].path| >= |entries[j].path|
  }

  function Insert(entry: Entry, sorted: seq<Entry>): (r: seq<Entry>)
    requires DeepestFirst(sorted)
    ensures DeepestFirst(r) && (forall e :: e in r <==> e == entry || e in sorted)
  {
    if sorted == [] || |entry.path| >= |sorted[0].path| then [entry] + sorted
    else
      var rest := Insert(entry, sorted[1..]);
      assert forall e <- rest :: |e.path| <= |sorted[0].path|;
      [sorted[0]] + rest
  }

  function SortDeepestFirst(entries: seq<Entry>): (r: seq<Entry>)
    ensures DeepestFirst(r) && (forall e :: e in r <==> e in entries)
  {
    if entries == [] then [] else Insert(entries[0], SortDeepestFirst(entries[1..]))
  }

  // ---------- Cleaning ----------

  /** The manifest saved with the checkpoint decides what is preserved; without one, what git ignores now. */
  predicate Preserved(manifest: Option<set<Path>>, ignored: set<Path>, p: Path) {
    match manifest
    case Some(paths) => p in paths
    case None => p in ignored
  }

  /** What the loop does with one entry. */
  function CleanOne(t: Tree, entry: Entry, checkpoint: set<Path>, keep: set<Path>): Tree {
    if entry.isDir then
      if entry.path in keep || t.HasChild(entry.path) then t else t.(dirs := t.dirs - {entry.path})
    else
      if entry.path in checkpoint || entry.path in keep then t else t.(files := t.files - {entry.path})
  }

  function CleanAll(t: Tree, entries: seq<Entry>, checkpoint: set<Path>, keep: set<Path>): Tree
    decreases |entries|
  {
    if entries == [] then t
    else CleanAll(CleanOne(t, entries[0], checkpoint, keep), entries[1..], checkpoint, keep)
  }

  ghost predicate Takes(t: Tree, gitlinks: set<Path>, p: Path) {
    Collected(t, gitlinks, [], p)
  }

  /** The local description of a cleaned workspace: collected files survive exactly when the checkpoint has them or they
    * are preserved, collected directories exactly when they are preserved or still hold something, and nothing else
    * changes. */
  ghost predicate Cleaned(before: Tree, after: Tree, gitlinks: set<Path>, checkpoint: set<Path>, keep: set<Path>) {
    && (forall p :: p in after.files <==>
          p in before.files && (Takes(before, gitlinks, p) ==> p in checkpoint || p in keep))
    && (forall p <- after.files :: after.files[p] == before.files[p])
    && (forall p :: p in after.dirs <==>
          p in before.dirs && (Takes(before, gitlinks, p) ==> p in keep || after.HasChild(p)))
  }

  /** The loop's invariant: what has become of the entries visited so far. */
  ghost predicate Partly(before: Tree, t: Tree, visited: seq<Entry>, checkpoint: set<Path>, keep: set<Path>) {
    && (forall p :: p in t.files <==>
          p in before.files && (Entry(p, false) in visited ==> p in checkpoint || p in keep))
    && (forall p <- t.files :: t.files[p] == before.files[p])
    && (forall p :: p in t.dirs <==>
          p in before.dirs && (Entry(p, true) in visited ==> p in keep || t.HasChild(p)))
  }

  /** Removing an entry no deeper than `d` does not empty `d`. */
  lemma ChildrenRemain(t: Tree, entry: Entry, checkpoint: set<Path>, keep: set<Path>, d: Path)
    requires |entry.path| <= |d|
    ensures CleanOne(t, entry, checkpoint, keep).HasChild(d) <==> t.HasChild(d)
  {
    var u := CleanOne(t, entry, checkpoint, keep);
    if t.HasChild(d) {
      if p :| p in t.files.Keys && |p| == |d| + 1 && d <= p {
        assert p in u.files.Keys;
      } else {
        var p :| p in t.dirs && |p| == |d| + 1 && d <= p;
        assert p in u.dirs;
      }
    }
  }

  lemma CleanOneKeepsPartly(
    before: Tree, t: Tree, visited: seq<Entry>, entry: Entry, checkpoint: set<Path>, keep: set<Path>)
    requires before.files.Keys !! before.dirs
    requires Partly(before, t, visited, checkpoint, keep) && DeepestFirst(visited + [entry])
    requires forall e <- visited + [entry] :: before.Has(e.path) && e.isDir == (e.path in before.dirs)
    ensures Partly(before, CleanOne(t, entry, checkpoint, keep), visited + [entry], checkpoint, keep)
  {
    var u, more := CleanOne(t, entry, checkpoint, keep), visited + [entry];
    forall p | Entry(p, true) in more ensures u.HasChild(p) <==> t.HasChild(p) {
      var i :| 0 <= i < |more| && more[i] == Entry(p, true);
      assert more[|more| - 1] == entry;
      ChildrenRemain(t, entry, checkpoint, keep, p);
    }
    forall p: Path, isDir: bool
      ensures Entry(p, isDir) in more <==> Entry(p, isDir) in visited || Entry(p, isDir) == entry
    {
    }
    hide DeepestFirst, Tree.HasChild, Tree.Has;
  }

  lemma {:induction false} CleanAllKeepsPartly(
    before: Tree, t: Tree, visited: seq<Entry>, entries: seq<Entry>, checkpoint: set<Path>, keep: set<Path>)
    requires before.files.Keys !! before.dirs
    requires Partly(before, t, visited, checkpoint, keep) && DeepestFirst(visited + entries)
    requires forall e <- visited + entries :: before.Has(e.path) && e.isDir == (e.path in before.dirs)
    ensures Partly(before, CleanAll(t, entries, checkpoint, keep), visited + entries, checkpoint, keep)
    decreases |entries|
  {
    hide Partly, CleanOne;
    if entries == [] {
      assert visited + entries == visited;
    } else {
      assert visited + entries == visited + [entries[0]] + entries[1..];
      assert DeepestFirst(visited + [entries[0]]) by {
        assert visited + [entries[0]] == (visited + entries)[..|visited| + 1];
      }
      CleanOneKeepsPartly(before, t, visited, entries[0], checkpoint, keep);
      CleanAllKeepsPartly(before, CleanOne(t, entries[0], checkpoint, keep), visited + [entries[0]], entries[1..],
                          checkpoint, keep);
    }
  }

  lemma CleanAllCleans(t: Tree, entries: seq<Entry>, gitlinks: set<Path>, checkpoint: set<Path>, keep: set<Path>)
    requires t.WellFormed() && Lists(entries, t, gitlinks, []) && DeepestFirst(entries)
    ensures Cleaned(t, CleanAll(t, entries, checkpoint, keep), gitlinks, checkpoint, keep)
  {
    assert Partly(t, t, [], checkpoint, keep);
    assert [] + entries == entries;
    CleanAllKeepsPartly(t, t, [], entries, checkpoint, keep);
    forall p: Path
      ensures Entry(p, false) in entries <==> Takes(t, gitlinks, p) && p in t.files
      ensures Entry(p, true) in entries <==> Takes(t, gitlinks, p) && p in t.dirs
    {
    }
  }

  // ---------- Which directories survive ----------

  /** Everything that a cleanup leaves in place whatever happens around it. */
  ghost predicate Kept(t: Tree, gitlinks: set<Path>, checkpoint: set<Path>, keep: set<Path>, p: Path) {
    && t.Has(p)
    && (Takes(t, gitlinks, p) ==> p in keep || (p in t.files && p in checkpoint))
  }

  lemma KeptSurvives(before: Tree, after: Tree, gitlinks: set<Path>, checkpoint: set<Path>, keep: set<Path>,
                     d: Path, p: Path)
    requires before.WellFormed() && Cleaned(before, after, gitlinks, checkpoint, keep)
    requires d in before.dirs && d <= p && Kept(before, gitlinks, checkpoint, keep, p)
    ensures d in after.dirs
    decreases |p| - |d|
  {
    if d != p {
      var child := p[..|d| + 1];
      assert child[..|d|] == d;
      if child != p {
        assert child in before.dirs;
        KeptSurvives(before, after, gitlinks, checkpoint, keep, child, p);
      }
      assert after.HasChild(d);
    }
  }

  lemma SurvivorHoldsKept(before: Tree, after: Tree, gitlinks: set<Path>, checkpoint: set<Path>, keep: set<Path>,
                          d: Path) returns (p: Path)
    requires before.WellFormed() && Cleaned(before, after, gitlinks, checkpoint, keep)
    requires d in after.dirs
    ensures d <= p && Kept(before, gitlinks, checkpoint, keep, p)
    decreases |Below(before, d)|
  {
    if Kept(before, gitlinks, checkpoint, keep, d) {
      return d;
    }
    if c :| c in after.files.Keys && |c| == |d| + 1 && d <= c {
      return c;
    }
    var c :| c in after.dirs && |c| == |d| + 1 && d <= c;
    BelowShrinks(before, d, c);
    p := SurvivorHoldsKept(before, after, gitlinks, checkpoint, keep, c);
    assert d == c[..|d|] == p[..|c|][..|d|] == p[..|d|];
  }

  /** A directory survives the cleanup exactly when something that is kept lies at it or below it, at any depth. */
  lemma DirectorySurvivesIff(before: Tree, after: Tree, gitlinks: set<Path>, checkpoint: set<Path>, keep: set<Path>,
                             d: Path)
    requires before.WellFormed() && Cleaned(before, after, gitlinks, checkpoint, keep)
    requires d in before.dirs
    ensures d in after.dirs <==> exists p :: d <= p && Kept(before, gitlinks, checkpoint, keep, p)
  {
    if d in after.dirs {
      var p := SurvivorHoldsKept(before, after, gitlinks, checkpoint, keep, d);
    }
    if p :| d <= p && Kept(before, gitlinks, checkpoint, keep, p) {
      KeptSurvives(before, after, gitlinks, checkpoint, keep, d, p);
    }
  }

  lemma SurvivorIsKept(before: Tree, after: Tree, gitlinks: set<Path>, checkpoint: set<Path>, keep: set<Path>, p: Path)
    returns (kept: Path)
    requires before.WellFormed() && Cleaned(before, after, gitlinks, checkpoint, keep)
    requires after.Has(p)
    ensures p <= kept && Kept(before, gitlinks, checkpoint, keep, kept)
  {
    if p in after.dirs {
      kept := SurvivorHoldsKept(before, after, gitlinks, checkpoint, keep, p);
    } else {
      kept := p;
    }
  }

  /** The cleanup leaves a tree: no survivor loses its parent. */
  lemma CleanedIsWellFormed(before: Tree, after: Tree, gitlinks: set<Path>, checkpoint: set<Path>, keep: set<Path>)
    requires before.WellFormed() && Cleaned(before, after, gitlinks, checkpoint, keep)
    ensures after.WellFormed()
  {
    assert after.files.Keys <= before.files.Keys && after.dirs <= before.dirs;
    forall p: Path, n: nat | after.Has(p) && 0 < n < |p| ensures p[..n] in after.dirs {
      var kept := SurvivorIsKept(before, after, gitlinks, checkpoint, keep, p);
      assert before.Has(p) && p[..n] in before.dirs;
      assert p[..n] == kept[..|p|][..n] == kept[..n];
      KeptSurvives(before, after, gitlinks, checkpoint, keep, p[..n], kept);
    }
  }

  /** `p` is a `.git`, lies below one, or is or lies in a directory that holds one or is a submodule. */
  ghost predicate Foreign(t: Tree, gitlinks: set<Path>, p: Path) {
    exists n: nat | 0 < n <= |p| :: RepositoryAt(t, gitlinks, p, n)
  }

  predicate RepositoryAt(t: Tree, gitlinks: set<Path>, p: Path, n: nat)
    requires 0 < n <= |p|
  {
    p[n - 1] == ".git" || (p[..n] in t.dirs && (t.Has(p[..n] + [".git"]) || p[..n] in gitlinks))
  }

  /** Everything below the root is collected except what belongs to a repository. */
  lemma CollectedIff(t: Tree, gitlinks: set<Path>, p: Path)
    ensures Takes(t, gitlinks, p) <==> t.Has(p) && p != [] && !Foreign(t, gitlinks, p)
  {
    forall n: nat | 0 < n <= |p| ensures Skipped(t, gitlinks, p[..n]) <==> RepositoryAt(t, gitlinks, p, n) {
      assert p[..n][n - 1] == p[n - 1];
    }
    hide Skipped, RepositoryAt;
    if t.Has(p) && p != [] && !Foreign(t, gitlinks, p) {
      assert forall n: nat {:trigger p[..n]} | 0 < n <= |p| :: !RepositoryAt(t, gitlinks, p, n);
    }
  }

  /** Cleaning leaves repositories alone. */
  lemma RepositoriesStay(
    before: Tree, after: Tree, gitlinks: set<Path>, checkpoint: set<Path>, keep: set<Path>, p: Path)
    requires Cleaned(before, after, gitlinks, checkpoint, keep) && Foreign(before, gitlinks, p)
    ensures p in after.dirs <==> p in before.dirs
    ensures p in after.files <==> p in before.files
    ensures p in before.files ==> after.files[p] == before.files[p]
  {
    CollectedIff(before, gitlinks, p);
    hide Foreign, Collected;
  }

  // ---------- git restore ----------

  /** `p` is where a checkpoint file has to be, on the way to one, or below one. */
  ghost predicate InTheWay(checkpoint: map<Path, Content>, p: Path) {
    exists q <- checkpoint :: q <= p || p <= q
  }

  ghost function Parents(paths: set<Path>): set<Path> {
    set q, n: nat | q in paths && 0 < n < |q| :: q[..n]
  }

  /** A file that git tracks and the checkpoint does not have: restoring removes it. */
  predicate Dropped(t: Tree, checkpoint: map<Path, Content>, tracked: set<Path>, p: Path) {
    p in t.files && p in tracked && p !in checkpoint
  }

  /** What a removal leaves under a directory: the other files, and directories without a removed file below. */
  ghost predicate Remains(t: Tree, checkpoint: map<Path, Content>, tracked: set<Path>, p: Path) {
    || (p in t.files && !Dropped(t, checkpoint, tracked, p))
    || (p in t.dirs && forall q <- t.files.Keys | p <= q :: !Dropped(t, checkpoint, tracked, q))
  }

  /** A directory stays unless a removed file was the last thing below it. */
  ghost predicate Inhabited(t: Tree, checkpoint: map<Path, Content>, tracked: set<Path>, d: Path) {
    exists p :: d <= p && Remains(t, checkpoint, tracked, p)
  }

  /** `git restore --source <checkpoint> --worktree -- .`, which restores without overlay: tracked files that the
    * checkpoint does not have are removed, with the directories this empties; whatever occupies the place of a
    * checkpoint file or of one of its directories gives way; the files are written; and nothing else is touched. */
  ghost function GitRestored(t: Tree, checkpoint: map<Path, Content>, tracked: set<Path>): Tree {
    Tree((map p | p in t.files && !InTheWay(checkpoint, p) && p !in tracked :: t.files[p]) + checkpoint,
         (set d | d in t.dirs && !(exists q <- checkpoint :: q <= d) && Inhabited(t, checkpoint, tracked, d))
         + Parents(checkpoint.Keys))
  }

  /** A checkpoint is the file list of a commit: no empty path, and no file lies below another. */
  ghost predicate IsCheckpoint(checkpoint: map<Path, Content>) {
    [] !in checkpoint && forall p <- checkpoint, q <- checkpoint :: p <= q ==> p == q
  }

  lemma RestoredFilesAreFiles(t: Tree, checkpoint: map<Path, Content>, tracked: set<Path>)
    requires t.WellFormed() && IsCheckpoint(checkpoint)
    ensures var u := GitRestored(t, checkpoint, tracked); u.files.Keys !! u.dirs && !u.Has([])
  {
    var u := GitRestored(t, checkpoint, tracked);
    hide Inhabited;
    forall d <- Parents(checkpoint.Keys) ensures d != [] && d !in u.files {
      var q, n: nat :| q in checkpoint.Keys && 0 < n < |q| && d == q[..n];
      assert d <= q;
    }
    forall p <- u.files ensures p !in u.dirs {
    }
  }

  /** A parent of a path that stays is a directory that stays. */
  lemma ParentStays(t: Tree, checkpoint: map<Path, Content>, tracked: set<Path>, p: Path, n: nat)
    requires t.WellFormed() && t.Has(p) && 0 < n < |p|
    requires !(exists q <- checkpoint :: q <= p) && Inhabited(t, checkpoint, tracked, p)
    ensures p[..n] in GitRestored(t, checkpoint, tracked).dirs
  {
    hide Remains;
    var kept :| p <= kept && Remains(t, checkpoint, tracked, kept);
    assert p[..n] <= kept;
    assert p[..n] in t.dirs;
    forall q <- checkpoint ensures !(q <= p[..n]) {
      assert q <= p[..n] ==> q <= p;
    }
  }

  lemma RestoredIsWellFormed(t: Tree, checkpoint: map<Path, Content>, tracked: set<Path>)
    requires t.WellFormed() && IsCheckpoint(checkpoint)
    ensures GitRestored(t, checkpoint, tracked).WellFormed()
  {
    var u := GitRestored(t, checkpoint, tracked);
    RestoredFilesAreFiles(t, checkpoint, tracked);
    forall p: Path, n: nat | u.Has(p) && 0 < n < |p| ensures p[..n] in u.dirs {
      if p in checkpoint {
        assert p[..n] in Parents(checkpoint.Keys);
      } else if p in Parents(checkpoint.Keys) {
        var q, m: nat :| q in checkpoint.Keys && 0 < m < |q| && p == q[..m];
        assert p[..n] == q[..n];
      } else {
        if p in u.files {
          assert Remains(t, checkpoint, tracked, p);
        }
        hide Remains;
        ParentStays(t, checkpoint, tracked, p, n);
      }
    }
  }

  /** Restoring, whatever was edited since the checkpoint was taken: every checkpoint file has its checkpoint
    * content; any other file is left exactly when it was there before, git does not track it, it is not in the way
    * of a checkpoint file, and it was preserved or passed over by collection, and then with its content unchanged;
    * and the result is a tree again. */
  lemma RestoreIsExact(before: Tree, after: Tree, gitlinks: set<Path>, checkpoint: map<Path, Content>, keep: set<Path>,
                       tracked: set<Path>)
    requires before.WellFormed() && IsCheckpoint(checkpoint)
    requires Cleaned(before, after, gitlinks, checkpoint.Keys, keep)
    ensures var restored := GitRestored(after, checkpoint, tracked);
            && (forall p <- checkpoint :: p in restored.files && restored.files[p] == checkpoint[p])
            && (forall p | p !in checkpoint ::
                  (p in restored.files <==>
                   && p in before.files && !InTheWay(checkpoint, p) && p !in tracked
                   && (Takes(before, gitlinks, p) ==> p in keep)))
            && (forall p <- restored.files | p !in checkpoint :: restored.files[p] == before.files[p])
            && restored.WellFormed()
  {
    CleanedIsWellFormed(before, after, gitlinks, checkpoint.Keys, keep);
    RestoredIsWellFormed(after, checkpoint, tracked);
    hide Inhabited, Tree.WellFormed;
  }

  class Workspace {
    var files: map<Path, Content>
    var dirs: set<Path>

    constructor (tree: Tree)
      ensures View() == tree
    {
      files, dirs := tree.files, tree.dirs;
    }

    function View(): Tree
      reads this
    {
      Tree(files, dirs)
    }

    /** `check-ignore` over the collected entries. */
    method IgnoredPaths(entries: seq<Entry>, ignores: Path -> bool) returns (ignored: set<Path>)
      ensures ignored == set entry <- entries | ignores(entry.path) :: entry.path
    {
      ignored := {};
      for i := 0 to |entries|
        invariant ignored == set entry <- entries[..i] | ignores(entry.path) :: entry.path
      {
        assert entries[..i + 1] == entries[..i] + [entries[i]];
        if ignores(entries[i].path) {
          ignored := ignored + {entries[i].path};
        }
      }
      assert entries[..|entries|] == entries;
    }

    method RemovePathsAbsentFromCheckpoint(
      checkpoint: set<Path>, manifest: Option<set<Path>>, gitlinks: set<Path>, ignores: Path -> bool)
      returns (ghost keep: set<Path>)
      requires View().WellFormed()
      modifies this
      ensures Cleaned(old(View()), View(), gitlinks, checkpoint, keep)
      ensures manifest.Some? ==> keep == manifest.value
      ensures manifest.None? ==> forall p :: p in keep <==> Takes(old(View()), gitlinks, p) && ignores(p)
    {
      var entries := CollectWorkspaceEntries(View(), gitlinks, []);
      var ignored := {};
      if manifest.None? {
        ignored := IgnoredPaths(entries, ignores);
      }
      keep := if manifest.Some? then manifest.value else ignored;
      entries := SortDeepestFirst(entries);
      ghost var before := View();
      CleanAllCleans(before, entries, gitlinks, checkpoint, keep);
      hide Cleaned, Tree.WellFormed, CleanOne;
      for i := 0 to |entries|
        invariant CleanAll(View(), entries[i..], checkpoint, keep) == CleanAll(before, entries, checkpoint, keep)
      {
        assert entries[i..][1..] == entries[i + 1..];
        CleanEntry(entries[i], checkpoint, manifest, ignored, keep);
      }
      assert entries[|entries|..] == [];
    }

    method CleanEntry(entry: Entry, checkpoint: set<Path>, manifest: Option<set<Path>>, ignored: set<Path>,
                      ghost keep: set<Path>)
      requires forall p :: p in keep <==> Preserved(manifest, ignored, p)
      modifies this
      ensures View() == CleanOne(old(View()), entry, checkpoint, keep)
    {
      if entry.isDir {
        if Preserved(manifest, ignored, entry.path) {
          return;
        }
        if !View().HasChild(entry.path) {
          dirs := dirs - {entry.path};
        }
        return;
      }
      if entry.path !in checkpoint && !Preserved(manifest, ignored, entry.path) {
        files := files - {entry.path};
      }
    }
  }
}
