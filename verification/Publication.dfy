/**
 Publishing a contained projection back into the workspace: what the listed changes mean as
 a merge, when a real directory tree can take them, and what the publish loop records.
 */
module Publication {
  import opened Common
  import opened WorkspaceDiff

  // ---------------------------------------------------------------- the changes as a merge of manifests

  function ApplyChange(w: Manifest, p: Manifest, c: Change): Manifest {
    if c.kind == Write && c.path in p then w[c.path := p[c.path]] else w - {c.path}
  }

  /** The workspace after the first `n` changes. */
  function ApplyUpTo(w: Manifest, p: Manifest, changes: seq<Change>, n: nat): Manifest
    requires n <= |changes|
  {
    if n == 0 then w else ApplyChange(ApplyUpTo(w, p, changes, n - 1), p, changes[n - 1])
  }

  function Applied(w: Manifest, p: Manifest, d: Diff): Manifest {
    ApplyUpTo(w, p, d.changes, |d.changes|)
  }

  lemma {:induction false} ApplyUpToAt(b: Manifest, w: Manifest, p: Manifest, d: Diff, n: nat, path: Path)
    requires IsDiff(b, w, p, d) && n <= |d.changes|
    ensures Get(ApplyUpTo(w, p, d.changes, n), path)
            == if path in ChangedPaths(d.changes[..n]) then Get(p, path) else Get(w, path)
  {
    if n > 0 {
      ApplyUpToAt(b, w, p, d, n - 1, path);
      ChangedPathsSnoc(d.changes, n);
      assert d.changes[n - 1] in d.changes;
    }
  }

  lemma ChangedPathsSnoc(changes: seq<Change>, n: nat)
    requires 0 < n <= |changes|
    ensures ChangedPaths(changes[..n]) == ChangedPaths(changes[..n - 1]) + [changes[n - 1].path]
  {
  }

  /**
   The merge theorem: a changed path ends up as in the projection, every other path of the
   workspace, edited meanwhile or not, is left as it was.
   */
  lemma MergeMeaning(b: Manifest, w: Manifest, p: Manifest, d: Diff, path: Path)
    requires IsDiff(b, w, p, d)
    ensures Get(Applied(w, p, d), path)
            == if Get(p, path) != Get(b, path) && Get(w, path) == Get(b, path) then Get(p, path) else Get(w, path)
  {
    ApplyUpToAt(b, w, p, d, |d.changes|, path);
    assert d.changes[..|d.changes|] == d.changes;
  }

  lemma SameEverywhere(a: Manifest, c: Manifest)
    requires forall path :: Get(a, path) == Get(c, path)
    ensures a == c
  {
    forall path ensures path in a <==> path in c {
      assert Get(a, path) == Get(c, path);
    }
    forall path | path in a ensures a[path] == c[path] {
      assert Get(a, path) == Get(c, path);
    }
  }

  lemma EmptyOrNot<T>(s: seq<T>)
    ensures s == [] || s[0] in s
  {
  }

  /** Over an untouched workspace publication has no conflicts and produces exactly the projection. */
  lemma PublicationRoundTrip(b: Manifest, p: Manifest, d: Diff)
    requires IsDiff(b, b, p, d)
    ensures d.conflicts == [] && Applied(b, p, d) == p
  {
    EmptyOrNot(d.conflicts);
    forall path ensures Get(Applied(b, p, d), path) == Get(p, path) {
      MergeMeaning(b, b, p, d, path);
    }
    SameEverywhere(Applied(b, p, d), p);
  }

  /** A projection nobody touched publishes nothing, whatever happened to the workspace. */
  lemma UntouchedProjection(b: Manifest, w: Manifest, d: Diff)
    requires IsDiff(b, w, b, d)
    ensures d.changes == [] && d.conflicts == []
  {
    EmptyOrNot(d.conflicts);
    EmptyOrNot(ChangedPaths(d.changes));
  }

  /**
   Publishing a run again after the first `n` changes got through: exactly their paths conflict, because the
   workspace no longer shows the baseline there, and the other changes are still to be made.
   */
  lemma RetryConflicts(b: Manifest, w: Manifest, p: Manifest, d: Diff, n: nat, again: Diff)
    requires IsDiff(b, w, p, d) && d.conflicts == [] && n <= |d.changes|
    requires IsDiff(b, ApplyUpTo(w, p, d.changes, n), p, again)
    ensures Elements(again.conflicts) == Elements(ChangedPaths(d.changes[..n]))
    ensures Elements(ChangedPaths(again.changes)) == Elements(ChangedPaths(d.changes[n..]))
    ensures again.conflicts == [] <==> n == 0
  {
    var first, rest := ChangedPaths(d.changes[..n]), ChangedPaths(d.changes[n..]);
    assert ChangedPaths(d.changes) == first + rest;
    forall path
      ensures path in again.conflicts <==> path in first
      ensures path in ChangedPaths(again.changes) <==> path in rest
    {
      ApplyUpToAt(b, w, p, d, n, path);
      assert path !in d.conflicts;
      assert path in ChangedPaths(d.changes) <==> path in first || path in rest;
      OncePerPath(d.changes, n, path);
    }
    EmptyOrNot(again.conflicts);
    if n > 0 {
      assert first[0] in first;
    }
  }

  lemma OncePerPath(changes: seq<Change>, n: nat, path: Path)
    requires Sorted(ChangedPaths(changes)) && n <= |changes|
    ensures !(path in ChangedPaths(changes[..n]) && path in ChangedPaths(changes[n..]))
  {
    if path in ChangedPaths(changes[..n]) && path in ChangedPaths(changes[n..]) {
      var i :| 0 <= i < n && ChangedPaths(changes[..n])[i] == path;
      var j :| 0 <= j < |changes| - n && ChangedPaths(changes[n..])[j] == path;
      assert ChangedPaths(changes)[i] == path && ChangedPaths(changes)[n + j] == path;
      LessTotal(path, path);
    }
  }

  lemma NoElements(ps: seq<Path>)
    requires Elements(ps) == {}
    ensures ps == []
  {
    EmptyOrNot(ps);
    assert forall p :: p in ps ==> p in Elements(ps);
  }

  /** Publishing a complete run a second time is refused, whatever it changed. */
  lemma RepublishingConflicts(b: Manifest, w: Manifest, p: Manifest, d: Diff, again: Diff)
    requires IsDiff(b, w, p, d) && d.conflicts == []
    requires IsDiff(b, Applied(w, p, d), p, again)
    ensures again.changes == []
    ensures Elements(again.conflicts) == Elements(ChangedPaths(d.changes))
  {
    RetryConflicts(b, w, p, d, |d.changes|, again);
    assert d.changes[..|d.changes|] == d.changes && d.changes[|d.changes|..] == [];
    assert ChangedPaths([]) == [];
    NoElements(ChangedPaths(again.changes));
  }

  // ---------------------------------------------------------------- the changes on a directory tree

  /** A directory tree: its regular files and its directories, the root left out. */
  datatype Tree = Tree(files: Manifest, directories: set<Path>)

  function Ancestors(path: Path): set<Path> {
    set i | 0 <= i < |path| && path[i] == '/' :: path[..i]
  }

  ghost predicate IsTree(t: Tree) {
    && t.directories !! t.files.Keys
    && (forall p :: p in t.files ==> Ancestors(p) <= t.directories)
    && (forall p :: p in t.directories ==> Ancestors(p) <= t.directories)
  }

  /** The files of some directory tree: none lies below another. */
  ghost predicate TreeShaped(m: Manifest) {
    forall p :: p in m ==> Ancestors(p) !! m.Keys
  }

  /**
   The governed write creates missing parents and renames a temporary file into place, so it fails
   on a directory and below a file.  The governed delete fails below a file.
   */
  function Perform(t: Tree, p: Manifest, c: Change): Option<Tree> {
    if exists a :: a in Ancestors(c.path) && a in t.files then None
    else if c.kind == Write then
      if c.path in t.directories || c.path !in p then None
      else Some(Tree(t.files[c.path := p[c.path]], t.directories + Ancestors(c.path)))
    else if c.path in t.directories then Some(Pruned(t, c.path))
    else Some(t.(files := t.files - {c.path}))
  }

  function Pruned(t: Tree, path: Path): Tree {
    Tree(map q | q in t.files && path !in Ancestors(q) :: t.files[q],
         set q | q in t.directories && q != path && path !in Ancestors(q))
  }

  function PerformUpTo(t: Tree, p: Manifest, changes: seq<Change>, n: nat): Option<Tree>
    requires n <= |changes|
  {
    if n == 0 then Some(t)
    else
      var before := PerformUpTo(t, p, changes, n - 1);
      if before.None? then None else Perform(before.value, p, changes[n - 1])
  }

  /** A file the projection wants to write is a directory of the workspace, or lies below a file it does not know. */
  ghost predicate Blocked(t: Tree, b: Manifest, path: Path) {
    path in t.directories || exists a :: a in Ancestors(path) && a in t.files && a !in b
  }

  lemma AncestorIsLess(a: Path, path: Path)
    requires a in Ancestors(path)
    ensures Less(a, path) && a != path
  {
    PrefixIsLess(a, path);
  }

  /** The paths written by the first `n` changes. */
  function WrittenPaths(changes: seq<Change>, n: nat): set<Path>
    requires n <= |changes|
  {
    set i | 0 <= i < n && changes[i].kind == Write :: changes[i].path
  }

  ghost predicate Reached(t: Tree, p: Manifest, changes: seq<Change>, n: nat, cur: Tree)
    requires n <= |changes|
  {
    && cur.files == ApplyUpTo(t.files, p, changes, n)
    && t.directories <= cur.directories
    && (forall q :: q in cur.directories ==>
          q in t.directories || exists w :: w in WrittenPaths(changes, n) && q in Ancestors(w))
  }

  lemma EarlierIsLess(changes: seq<Change>, i: nat, j: nat)
    requires Sorted(ChangedPaths(changes)) && i < |changes| && j < |changes|
    ensures i < j <==> Less(changes[i].path, changes[j].path)
  {
    LessTotal(changes[i].path, changes[j].path);
    var ps := ChangedPaths(changes);
    if i < j {
      assert Less(ps[i], ps[j]);
    } else if j < i {
      assert Less(ps[j], ps[i]);
    }
  }

  lemma ChangedBefore(changes: seq<Change>, n: nat, a: Path)
    requires Sorted(ChangedPaths(changes)) && n < |changes|
    requires a in ChangedPaths(changes) && Less(a, changes[n].path)
    ensures a in ChangedPaths(changes[..n])
  {
    var i :| 0 <= i < |changes| && ChangedPaths(changes)[i] == a;
    EarlierIsLess(changes, i, n);
    assert ChangedPaths(changes[..n])[i] == a;
  }

  /** Every file found in the way of change `n` is one the baseline does not know. */
  lemma FileInTheWay(t: Tree, b: Manifest, p: Manifest, d: Diff, n: nat, a: Path)
    requires IsDiff(b, t.files, p, d) && d.conflicts == [] && TreeShaped(p) && IsTree(t)
    requires n < |d.changes| && a in Ancestors(d.changes[n].path)
    requires a in ApplyUpTo(t.files, p, d.changes, n)
    requires d.changes[n].kind == Write
    ensures a in t.files && a !in b
  {
    assert d.changes[n] in d.changes;
    ApplyUpToAt(b, t.files, p, d, n, a);
    AncestorIsLess(a, d.changes[n].path);
    if a in b {
      assert a !in d.conflicts;
      ChangedBefore(d.changes, n, a);
    }
  }

  lemma WrittenAncestors(b: Manifest, w: Manifest, p: Manifest, d: Diff, n: nat)
    requires IsDiff(b, w, p, d) && TreeShaped(p) && n <= |d.changes|
    ensures forall q :: q in WrittenPaths(d.changes, n) ==> Ancestors(q) !! p.Keys
  {
    forall i | 0 <= i < n && d.changes[i].kind == Write ensures d.changes[i].path in p {
      assert d.changes[i] in d.changes;
    }
  }

  lemma WriteSucceedsUnlessBlocked(t: Tree, b: Manifest, p: Manifest, d: Diff, n: nat, cur: Tree)
    requires IsDiff(b, t.files, p, d) && d.conflicts == [] && TreeShaped(p) && IsTree(t)
    requires n < |d.changes| && Reached(t, p, d.changes, n, cur) && d.changes[n].kind == Write
    ensures Perform(cur, p, d.changes[n]).Some? <==> !Blocked(t, b, d.changes[n].path)
  {
    var path := d.changes[n].path;
    assert d.changes[n] in d.changes;
    WrittenAncestors(b, t.files, p, d, n);
    assert path in cur.directories <==> path in t.directories;
    forall a | a in Ancestors(path) && a in cur.files ensures a in t.files && a !in b {
      FileInTheWay(t, b, p, d, n, a);
    }
    forall a | a in Ancestors(path) && a in t.files && a !in b ensures a in cur.files {
      UnknownFileStays(t, b, p, d, n, a);
    }
  }

  lemma UnknownFileStays(t: Tree, b: Manifest, p: Manifest, d: Diff, n: nat, a: Path)
    requires IsDiff(b, t.files, p, d) && n <= |d.changes| && a in t.files && a !in b
    ensures a in ApplyUpTo(t.files, p, d.changes, n)
  {
    ApplyUpToAt(b, t.files, p, d, n, a);
    forall i | 0 <= i < n ensures ChangedPaths(d.changes[..n])[i] != a {
      assert ChangedPaths(d.changes)[i] in ChangedPaths(d.changes);
    }
  }

  lemma NotAnAncestor(changes: seq<Change>, n: nat, q: Path, w: Path)
    requires Sorted(ChangedPaths(changes)) && n < |changes| && w in WrittenPaths(changes, n) && q in Ancestors(w)
    ensures q != changes[n].path
  {
    var i :| 0 <= i < n && changes[i].kind == Write && changes[i].path == w;
    EarlierIsLess(changes, i, n);
    AncestorIsLess(q, w);
    LessTrans(q, w, changes[n].path);
    LessTotal(changes[n].path, changes[n].path);
  }

  /** A deleted file is not a directory meanwhile, and no file lies above it. */
  lemma DeleteSucceeds(t: Tree, b: Manifest, p: Manifest, d: Diff, n: nat, cur: Tree)
    requires IsDiff(b, t.files, p, d) && d.conflicts == [] && TreeShaped(p) && IsTree(t)
    requires n < |d.changes| && Reached(t, p, d.changes, n, cur) && d.changes[n].kind == Delete
    requires forall i :: 0 <= i < n && d.changes[i].kind == Write ==> !Blocked(t, b, d.changes[i].path)
    ensures Perform(cur, p, d.changes[n]) == Some(cur.(files := cur.files - {d.changes[n].path}))
  {
    var path := d.changes[n].path;
    assert d.changes[n] in d.changes;
    assert ChangedPaths(d.changes)[n] == path;
    assert path in ChangedPaths(d.changes);
    assert path in t.files;
    forall w, q | w in WrittenPaths(d.changes, n) && q in Ancestors(w) ensures q != path {
      NotAnAncestor(d.changes, n, q, w);
    }
    forall a | a in Ancestors(path) ensures a !in cur.files {
      NoFileAbove(t, b, p, d, n, a);
    }
  }

  /** A directory of the workspace never turned into a file on the way to change `n`. */
  lemma NoFileAbove(t: Tree, b: Manifest, p: Manifest, d: Diff, n: nat, a: Path)
    requires IsDiff(b, t.files, p, d) && IsTree(t) && n <= |d.changes| && a in t.directories
    requires forall i :: 0 <= i < n && d.changes[i].kind == Write ==> !Blocked(t, b, d.changes[i].path)
    ensures a !in ApplyUpTo(t.files, p, d.changes, n)
  {
    ApplyUpToAt(b, t.files, p, d, n, a);
    forall i | 0 <= i < n && d.changes[i].path == a ensures a !in p {
      assert d.changes[i] in d.changes;
      assert Blocked(t, b, a);
    }
  }

  /** Performing the changes one after another succeeds up to the first blocked write. */
  lemma {:induction false} PerformsUpTo(t: Tree, b: Manifest, p: Manifest, d: Diff, n: nat)
    requires IsDiff(b, t.files, p, d) && d.conflicts == [] && TreeShaped(p) && IsTree(t) && n <= |d.changes|
    ensures var r := PerformUpTo(t, p, d.changes, n);
            && (r.Some? <==> forall i :: 0 <= i < n && d.changes[i].kind == Write ==> !Blocked(t, b, d.changes[i].path))
            && (r.Some? ==> Reached(t, p, d.changes, n, r.value))
  {
    if n > 0 {
      PerformsUpTo(t, b, p, d, n - 1);
      var before := PerformUpTo(t, p, d.changes, n - 1);
      if before.Some? {
        var c := d.changes[n - 1];
        assert c in d.changes;
        if c.kind == Write {
          WriteSucceedsUnlessBlocked(t, b, p, d, n - 1, before.value);
          assert c.path in WrittenPaths(d.changes, n);
        } else {
          DeleteSucceeds(t, b, p, d, n - 1, before.value);
        }
        assert WrittenPaths(d.changes, n - 1) <= WrittenPaths(d.changes, n);
      }
    }
  }

  /**
   A conflict-free diff can be carried out on the workspace tree exactly when no file it writes is
   blocked, and then the files are the merge.  "No conflicts" alone does not ensure this.
   */
  lemma PublishesExactlyUnlessBlocked(t: Tree, b: Manifest, p: Manifest, d: Diff)
    requires IsDiff(b, t.files, p, d) && d.conflicts == [] && TreeShaped(p) && IsTree(t)
    ensures var r := PerformUpTo(t, p, d.changes, |d.changes|);
            && (r.Some? <==> forall path :: path in p && Get(b, path) != Some(p[path]) ==> !Blocked(t, b, path))
            && (r.Some? ==> r.value.files == Applied(t.files, p, d))
  {
    PerformsUpTo(t, b, p, d, |d.changes|);
    forall path | path in p && Get(b, path) != Some(p[path]) ensures Change(Write, path) in d.changes {
      assert path !in d.conflicts;
      assert path in ChangedPaths(d.changes);
      var i :| 0 <= i < |d.changes| && ChangedPaths(d.changes)[i] == path;
      assert d.changes[i] in d.changes;
    }
    forall c | c in d.changes && c.kind == Write ensures c.path in p && Get(b, c.path) != Some(p[c.path]) {
      var i :| 0 <= i < |d.changes| && d.changes[i] == c;
      assert ChangedPaths(d.changes)[i] == c.path;
    }
  }

  /** Over an untouched workspace the only obstacle is a directory that became a file. */
  lemma UntouchedWorkspacePublishes(t: Tree, p: Manifest, d: Diff)
    requires IsDiff(t.files, t.files, p, d) && TreeShaped(p) && IsTree(t)
    ensures var r := PerformUpTo(t, p, d.changes, |d.changes|);
            && (r.Some? <==> p.Keys !! t.directories)
            && (r.Some? ==> r.value.files == p)
  {
    PublicationRoundTrip(t.files, p, d);
    PublishesExactlyUnlessBlocked(t, t.files, p, d);
  }

  /** The obstacle is real: replacing directory `a` by file `a` is no conflict, and its write fails. */
  lemma DirectoryBecomesFile() returns (t: Tree, p: Manifest)
    ensures IsTree(t) && TreeShaped(p)
    ensures forall d :: IsDiff(t.files, t.files, p, d) ==>
              d.conflicts == [] && PerformUpTo(t, p, d.changes, |d.changes|).None?
  {
    t := Tree(map["a/b" := "old"], {"a"});
    p := map["a" := "new"];
    assert "a/b"[..1] == "a";
    forall q | q in Ancestors("a/b") ensures q == "a" {
      var i :| 0 <= i < 3 && "a/b"[i] == '/' && q == "a/b"[..i];
    }
    assert Ancestors("a") == {};
    assert "a" in p.Keys && "a" in t.directories;
    forall d | IsDiff(t.files, t.files, p, d)
      ensures d.conflicts == [] && PerformUpTo(t, p, d.changes, |d.changes|).None?
    {
      PublicationRoundTrip(t.files, p, d);
      UntouchedWorkspacePublishes(t, p, d);
    }
  }

  // ---------------------------------------------------------------- the publish loop

  type ActionId = nat

  /** What happens to one change: its file cannot be read as text, its submission throws, or it gets an action. */
  datatype Attempt = Unreadable | SubmissionFails | Submitted(id: ActionId)

  datatype PublishStatus = Published | PublishConflict | PublishFailed

  datatype ContainedRun = ContainedRun(
    status: PublishStatus, changedPaths: seq<Path>, conflictingPaths: seq<Path>, governedActionIds: seq<ActionId>)

  /** A delete reads no file. */
  predicate Plausible(changes: seq<Change>, attempts: seq<Attempt>) {
    |attempts| == |changes| && forall i :: 0 <= i < |changes| && changes[i].kind == Delete ==> !attempts[i].Unreadable?
  }

  /** `publishedSaves` says whether the record with status "published" can be saved. */
  method PublishContainedProjection(d: Diff, attempts: seq<Attempt>, publishedSaves: bool)
      returns (run: ContainedRun, submitted: seq<(Change, ActionId)>)
    requires Plausible(d.changes, attempts)
    ensures run.changedPaths == ChangedPaths(d.changes) && run.conflictingPaths == d.conflicts
    ensures |run.governedActionIds| == |submitted| <= |d.changes|
    ensures forall i :: 0 <= i < |submitted| ==>
              && attempts[i] == Submitted(run.governedActionIds[i])
              && submitted[i] == (d.changes[i], run.governedActionIds[i])
    ensures run.status == PublishConflict <==> d.conflicts != []
    ensures d.conflicts != [] ==> submitted == []
    ensures run.status == Published <==> d.conflicts == [] && |submitted| == |d.changes| && publishedSaves
    ensures d.conflicts == [] && |submitted| < |d.changes| ==> !attempts[|submitted|].Submitted?
  {
    var changed := ChangedPaths(d.changes);
    submitted := [];
    if |d.conflicts| > 0 {
      return ContainedRun(PublishConflict, changed, d.conflicts, []), [];
    }
    var governedActionIds: seq<ActionId> := [];
    for i := 0 to |d.changes|
      invariant |governedActionIds| == |submitted| == i
      invariant forall k :: 0 <= k < i ==>
                  attempts[k] == Submitted(governedActionIds[k]) && submitted[k] == (d.changes[k], governedActionIds[k])
    {
      var change := d.changes[i];
      if change.kind == Write && attempts[i].Unreadable? {
        return ContainedRun(PublishFailed, changed, [], governedActionIds), submitted;
      }
      if attempts[i].SubmissionFails? {
        return ContainedRun(PublishFailed, changed, [], governedActionIds), submitted;
      }
      governedActionIds := governedActionIds + [attempts[i].id];
      submitted := submitted + [(change, attempts[i].id)];
    }
    if !publishedSaves {
      return ContainedRun(PublishFailed, changed, [], governedActionIds), submitted;
    }
    run := ContainedRun(Published, changed, [], governedActionIds);
  }
}
