/**
 What a directory listing looks like on paper: the manifests that walks produce are the files of
 directory trees, and a walk fails exactly on an entry it does not support.
 */
module WorkspaceTree {
  import opened Common
  import opened WorkspaceDiff
  import opened Publication

  /** Names are not empty, contain no slash, and occur once in a directory. */
  predicate WellNamed(entries: seq<Entry>)
    decreases entries
  {
    && (forall i, j :: 0 <= i < j < |entries| ==> entries[i].name != entries[j].name)
    && (forall i :: 0 <= i < |entries| ==> IsName(entries[i].name))
    && (forall i :: 0 <= i < |entries| ==> entries[i].node.Directory? ==> WellNamed(entries[i].node.entries))
  }

  predicate IsName(name: string) {
    name != "" && '/' !in name
  }

  lemma WellNamedRest(entries: seq<Entry>)
    requires WellNamed(entries) && entries != []
    ensures WellNamed(entries[1..])
    ensures forall i :: 1 <= i < |entries| ==> entries[i].name != entries[0].name
  {
  }

  // ---------------------------------------------------------------- what lies where

  /** The directories outside the state directory. */
  function DirectoryPaths(entries: seq<Entry>, root: Path): set<Path>
    decreases entries
  {
    if entries == [] then {}
    else
      var path := Join(root, entries[0].name);
      (if Excluded(path) || !entries[0].node.Directory? then {}
       else {path} + DirectoryPaths(entries[0].node.entries, path))
      + DirectoryPaths(entries[1..], root)
  }

  /** The regular files outside the state directory. */
  function FilePaths(entries: seq<Entry>, root: Path): set<Path>
    decreases entries
  {
    if entries == [] then {}
    else
      var path := Join(root, entries[0].name);
      (if Excluded(path) then {}
       else match entries[0].node
            case File(_) => {path}
            case Directory(inner) => FilePaths(inner, path)
            case Special => {})
      + FilePaths(entries[1..], root)
  }

  /** Symbolic links, sockets and the like outside the state directory. */
  function SpecialPaths(entries: seq<Entry>, root: Path): set<Path>
    decreases entries
  {
    if entries == [] then {}
    else
      var path := Join(root, entries[0].name);
      (if Excluded(path) then {}
       else match entries[0].node
            case File(_) => {}
            case Directory(inner) => SpecialPaths(inner, path)
            case Special => {path})
      + SpecialPaths(entries[1..], root)
  }

  /** A walk fails exactly if there is an unsupported entry, and names one; otherwise it lists the regular files. */
  lemma {:induction false} WalkFailsExactlyOnSpecials(entries: seq<Entry>, root: Path, known: Manifest)
    ensures match Visit(entries, root, known)
            case Err(e) => e.path in SpecialPaths(entries, root)
            case Ok(files) => SpecialPaths(entries, root) == {} && files.Keys == known.Keys + FilePaths(entries, root)
    decreases entries
  {
    if entries != [] {
      var path := Join(root, entries[0].name);
      if Excluded(path) {
        WalkFailsExactlyOnSpecials(entries[1..], root, known);
      } else {
        match entries[0].node
        case File(digest) => WalkFailsExactlyOnSpecials(entries[1..], root, known[path := digest]);
        case Special =>
        case Directory(inner) =>
          WalkFailsExactlyOnSpecials(inner, path, known);
          if Visit(inner, path, known).Ok? {
            WalkFailsExactlyOnSpecials(entries[1..], root, Visit(inner, path, known).value);
          }
      }
    }
  }

  // ---------------------------------------------------------------- what is left out

  /** Only the top-level entry of that very name is left out, with all it contains. */
  lemma OnlyTheStateDirectory(root: Path, name: string)
    requires IsName(name)
    ensures root == "" ==> (Excluded(Join(root, name)) <==> name == ".agentgit")
    ensures root != "" ==> (Excluded(Join(root, name)) <==> Excluded(root))
  {
    var path, state := Join(root, name), ".agentgit" + "/";
    assert state[9] == '/' && forall i :: 0 <= i < 9 ==> state[i] != '/' && ".agentgit"[i] != '/';
    if root == "" {
      forall i | 0 <= i < |name| ensures name[i] != '/' {
        assert name[i] in name;
      }
    } else {
      assert path[|root|] == '/' && path[..|root|] == root;
      if state <= path {
        assert |root| >= 9;
        assert path[..9] == ".agentgit";
        if |root| == 9 {
          assert root == ".agentgit";
        } else {
          assert root[..10] == path[..10] == state;
        }
      }
      if root == ".agentgit" {
        assert path == state + name;
      } else if state <= root {
        assert path[..10] == root[..10] == state;
      }
    }
  }

  /** A regular file with this digest lies at this path, wherever that is. */
  predicate Lies(entries: seq<Entry>, root: Path, path: Path, digest: Digest)
    decreases entries
  {
    exists i :: 0 <= i < |entries| && LiesIn(entries[i], root, path, digest)
  }

  predicate LiesIn(entry: Entry, root: Path, path: Path, digest: Digest)
    decreases entry
  {
    match entry.node
    case File(d) => Join(root, entry.name) == path && d == digest
    case Directory(inner) => Lies(inner, Join(root, entry.name), path, digest)
    case Special => false
  }

  lemma {:induction false} NothingElseLeftOut(entries: seq<Entry>, root: Path, path: Path, digest: Digest)
    requires WellNamed(entries) && root != "" && !Excluded(root)
    ensures HasFile(entries, root, path, digest) <==> Lies(entries, root, path, digest)
    decreases entries
  {
    forall i | 0 <= i < |entries|
      ensures HasFileIn(entries[i], root, path, digest) <==> LiesIn(entries[i], root, path, digest)
    {
      OnlyTheStateDirectory(root, entries[i].name);
      if entries[i].node.Directory? {
        PathIsNotEmpty(root, entries[i].name);
        NothingElseLeftOut(entries[i].node.entries, Join(root, entries[i].name), path, digest);
      }
    }
  }

  /** The manifest of a workspace lists every regular file of it but those of its directory `.agentgit`. */
  lemma OnlyStateIsLeftOut(entries: seq<Entry>, path: Path, digest: Digest)
    requires WellNamed(entries)
    ensures HasFile(entries, "", path, digest)
            <==> exists i :: 0 <= i < |entries| && entries[i].name != ".agentgit" && LiesIn(entries[i], "", path, digest)
  {
    forall i | 0 <= i < |entries|
      ensures HasFileIn(entries[i], "", path, digest)
              <==> entries[i].name != ".agentgit" && LiesIn(entries[i], "", path, digest)
    {
      OnlyTheStateDirectory("", entries[i].name);
      if entries[i].node.Directory? && entries[i].name != ".agentgit" {
        NothingElseLeftOut(entries[i].node.entries, entries[i].name, path, digest);
      }
    }
  }

  // ---------------------------------------------------------------- paths of one listing

  predicate AtOrBelow(here: Path, p: Path) {
    p == here || here + "/" <= p
  }

  lemma BelowIsBelow(root: Path, name: string, p: Path)
    requires root != "" && AtOrBelow(Join(root, name), p)
    ensures root + "/" <= p && p != root
  {
    assert root + "/" <= Join(root, name);
  }

  /** Names without a slash lead to different places. */
  lemma NamesLeadApart(root: Path, a: string, b: string, p: Path)
    requires IsName(a) && IsName(b) && a != b && AtOrBelow(Join(root, a), p)
    ensures !AtOrBelow(Join(root, b), p)
  {
    if AtOrBelow(Join(root, b), p) {
      var k := if root == "" then 0 else |root| + 1;
      assert Join(root, a)[k..] == a && Join(root, b)[k..] == b;
      var rest := p[k..];
      Stripped(root, a, p, k);
      Stripped(root, b, p, k);
      HeadsDiffer(a, b, rest);
    }
  }

  lemma Stripped(root: Path, name: string, p: Path, k: nat)
    requires AtOrBelow(Join(root, name), p) && k == (if root == "" then 0 else |root| + 1)
    ensures k <= |p| && AtOrBelow(name, p[k..])
  {
    var here := Join(root, name);
    assert here[k..] == name && |here| == k + |name|;
    if p != here {
      assert p[k..][..|name| + 1] == p[..|here| + 1][k..] == (here + "/")[k..] == name + "/";
    }
  }

  lemma HeadsDiffer(a: string, b: string, rest: string)
    requires IsName(a) && IsName(b) && AtOrBelow(a, rest) && AtOrBelow(b, rest)
    ensures a == b
  {
    assert a <= rest && b <= rest;
    if |a| < |b| {
      SlashInside(a, b, rest);
    } else if |b| < |a| {
      SlashInside(b, a, rest);
    } else {
      assert a == rest[..|a|] == b;
    }
  }

  lemma SlashInside(short: string, long: string, rest: string)
    requires |short| < |long| && short + "/" <= rest && long <= rest
    ensures '/' in long
  {
    assert long[|short|] == rest[|short|] == (short + "/")[|short|];
  }

  /** Every path of a listing is at or below one of its entries. */
  lemma {:induction false} FoundBelow(entries: seq<Entry>, root: Path, p: Path) returns (i: nat)
    requires WellNamed(entries) && p in DirectoryPaths(entries, root) + FilePaths(entries, root)
    ensures i < |entries| && AtOrBelow(Join(root, entries[i].name), p)
    decreases entries
  {
    var path := Join(root, entries[0].name);
    if p in DirectoryPaths(entries[1..], root) + FilePaths(entries[1..], root) {
      WellNamedRest(entries);
      var k := FoundBelow(entries[1..], root, p);
      i := k + 1;
    } else {
      i := 0;
      if entries[0].node.Directory? && p != path {
        var inner := entries[0].node.entries;
        var k := FoundBelow(inner, path, p);
        PathIsNotEmpty(root, entries[0].name);
        BelowIsBelow(path, inner[k].name, p);
      }
    }
  }

  lemma PathIsNotEmpty(root: Path, name: string)
    requires IsName(name)
    ensures Join(root, name) != ""
  {
  }

  lemma InnerPathsAreBelow(inner: seq<Entry>, path: Path)
    requires WellNamed(inner) && path != ""
    ensures forall p :: p in DirectoryPaths(inner, path) + FilePaths(inner, path) ==> path + "/" <= p && p != path
  {
    forall p | p in DirectoryPaths(inner, path) + FilePaths(inner, path) ensures path + "/" <= p && p != path {
      var k := FoundBelow(inner, path, p);
      BelowIsBelow(path, inner[k].name, p);
    }
  }

  lemma RestIsElsewhere(entries: seq<Entry>, root: Path)
    requires WellNamed(entries) && entries != []
    ensures forall p :: p in DirectoryPaths(entries[1..], root) + FilePaths(entries[1..], root) ==>
              !AtOrBelow(Join(root, entries[0].name), p)
  {
    WellNamedRest(entries);
    forall p | p in DirectoryPaths(entries[1..], root) + FilePaths(entries[1..], root)
      ensures !AtOrBelow(Join(root, entries[0].name), p)
    {
      var k := FoundBelow(entries[1..], root, p);
      assert entries[1..][k] == entries[k + 1];
      NamesLeadApart(root, entries[1..][k].name, entries[0].name, p);
    }
  }

  lemma SplitPaths(entries: seq<Entry>, root: Path)
    requires entries != []
    ensures var path := Join(root, entries[0].name);
            var inner := if entries[0].node.Directory? then entries[0].node.entries else [];
            && DirectoryPaths(entries, root) <= {path} + DirectoryPaths(inner, path) + DirectoryPaths(entries[1..], root)
            && FilePaths(entries, root)
               <= (if entries[0].node.Directory? then FilePaths(inner, path) else {path}) + FilePaths(entries[1..], root)
            && (!entries[0].node.Directory? ==> DirectoryPaths(entries, root) == DirectoryPaths(entries[1..], root))
  {
  }

  /** Nothing is both a file and a directory. */
  lemma {:induction false} KindsAreApart(entries: seq<Entry>, root: Path)
    requires WellNamed(entries)
    ensures DirectoryPaths(entries, root) !! FilePaths(entries, root)
    decreases entries
  {
    if entries != [] {
      var path := Join(root, entries[0].name);
      WellNamedRest(entries);
      KindsAreApart(entries[1..], root);
      RestIsElsewhere(entries, root);
      if entries[0].node.Directory? {
        var inner := entries[0].node.entries;
        PathIsNotEmpty(root, entries[0].name);
        KindsAreApart(inner, path);
        InnerPathsAreBelow(inner, path);
        assert forall p :: p in DirectoryPaths(inner, path) + FilePaths(inner, path) ==> AtOrBelow(path, p);
      }
      assert AtOrBelow(path, path);
      SplitPaths(entries, root);
    }
  }

  // ---------------------------------------------------------------- ancestors

  /** The directories above the entries of `root`. */
  function Above(root: Path): set<Path> {
    if root == "" then {} else Ancestors(root) + {root}
  }

  lemma AncestorsOfEntry(root: Path, name: string)
    requires IsName(name)
    ensures Ancestors(Join(root, name)) == Above(root)
  {
    var p := Join(root, name);
    var k := if root == "" then 0 else |root| + 1;
    assert p[k..] == name;
    forall i | k <= i < |p| ensures p[i] != '/' {
      assert p[i] == name[i - k] && name[i - k] in name;
    }
    if root != "" {
      assert p[|root|] == '/' && p[..|root|] == root;
      forall i | 0 <= i < |root| ensures p[i] == root[i] && p[..i] == root[..i] {
      }
      assert forall q :: q in Ancestors(p) ==> q in Above(root);
      forall q | q in Ancestors(root) ensures q in Ancestors(p) {
        var i :| 0 <= i < |root| && root[i] == '/' && q == root[..i];
        assert p[i] == '/' && q == p[..i];
      }
    }
  }

  /** Whatever lies above a file or directory of the listing is a directory of it, or lies above the listing. */
  lemma {:induction false} AncestorsAreDirectories(entries: seq<Entry>, root: Path, p: Path)
    requires WellNamed(entries) && p in DirectoryPaths(entries, root) + FilePaths(entries, root)
    ensures Ancestors(p) <= Above(root) + DirectoryPaths(entries, root)
    decreases entries
  {
    var path := Join(root, entries[0].name);
    AncestorsOfEntry(root, entries[0].name);
    if p in DirectoryPaths(entries[1..], root) + FilePaths(entries[1..], root) {
      WellNamedRest(entries);
      AncestorsAreDirectories(entries[1..], root, p);
    } else if p != path {
      AncestorsAreDirectories(entries[0].node.entries, path, p);
    }
  }

  /** The manifest of a finished walk is the files of a directory tree. */
  lemma WalkedIsTree(entries: seq<Entry>)
    requires WellNamed(entries) && Visit(entries, "", map[]).Ok?
    ensures var files := Visit(entries, "", map[]).value;
            IsTree(Tree(files, DirectoryPaths(entries, ""))) && TreeShaped(files)
  {
    var files := Visit(entries, "", map[]).value;
    WalkFailsExactlyOnSpecials(entries, "", map[]);
    KindsAreApart(entries, "");
    forall p | p in DirectoryPaths(entries, "") + FilePaths(entries, "")
      ensures Ancestors(p) <= DirectoryPaths(entries, "")
    {
      AncestorsAreDirectories(entries, "", p);
    }
  }

  /**
   So for the listings of a workspace and of a projection: over an untouched workspace publication succeeds
   exactly if no projected file has the path of a workspace directory, and then leaves the projection's files.
   */
  lemma ListingsPublish(workspace: seq<Entry>, projection: seq<Entry>, d: Diff)
    requires WellNamed(workspace) && Visit(workspace, "", map[]).Ok?
    requires WellNamed(projection) && Visit(projection, "", map[]).Ok?
    requires var files := Visit(workspace, "", map[]).value;
             IsDiff(files, files, Visit(projection, "", map[]).value, d)
    ensures var t := Tree(Visit(workspace, "", map[]).value, DirectoryPaths(workspace, ""));
            var r := PerformUpTo(t, Visit(projection, "", map[]).value, d.changes, |d.changes|);
            && (r.Some? <==> FilePaths(projection, "") !! DirectoryPaths(workspace, ""))
            && (r.Some? ==> r.value.files == Visit(projection, "", map[]).value)
  {
    WalkedIsTree(workspace);
    WalkedIsTree(projection);
    WalkFailsExactlyOnSpecials(projection, "", map[]);
    UntouchedWorkspacePublishes(Tree(Visit(workspace, "", map[]).value, DirectoryPaths(workspace, "")),
                                Visit(projection, "", map[]).value, d);
  }
}
