/**
 The three-way comparison of baseline manifest, current workspace and projection, and the
 file walk that feeds it.  Digests are compared only for equality and stand for contents.
 */
module WorkspaceDiff {
  import opened Common

  type Path = string
  type Digest = string

  // ---------------------------------------------------------------- walking a directory

  datatype Node = File(digest: Digest) | Directory(entries: seq<Entry>) | Special

  datatype Entry = Entry(name: string, node: Node)

  const STATE_DIRECTORY := ".agentgit"

  predicate Excluded(path: Path) {
    path == STATE_DIRECTORY || STATE_DIRECTORY + "/" <= path
  }

  function Join(root: Path, name: string): Path {
    if root == "" then name else root + "/" + name
  }

  datatype WalkError = UnsupportedEntry(path: Path)

  type Manifest = map<Path, Digest>

  function Visit(entries: seq<Entry>, root: Path, files: Manifest): Result<Manifest, WalkError>
    decreases entries
  {
    if entries == [] then Ok(files)
    else
      var path := Join(root, entries[0].name);
      if Excluded(path) then Visit(entries[1..], root, files)
      else
        match entries[0].node
        case File(digest) => Visit(entries[1..], root, files[path := digest])
        case Special => Err(UnsupportedEntry(path))
        case Directory(inner) =>
          match Visit(inner, path, files)
          case Err(e) => Err(e)
          case Ok(found) => Visit(entries[1..], root, found)
  }

  method WalkFiles(entries: seq<Entry>, root: Path, known: Manifest) returns (r: Result<Manifest, WalkError>)
    ensures r == Visit(entries, root, known)
    decreases entries
  {
    var files := known;
    var i := 0;
    while i < |entries|
      invariant 0 <= i <= |entries|
      invariant Visit(entries[i..], root, files) == Visit(entries, root, known)
    {
      assert entries[i..][0] == entries[i] && entries[i..][1..] == entries[i + 1..];
      var path := Join(root, entries[i].name);
      if !Excluded(path) {
        match entries[i].node {
          case File(digest) =>
            files := files[path := digest];
          case Special =>
            return Err(UnsupportedEntry(path));
          case Directory(inner) =>
            var found := WalkFiles(inner, path, files);
            if found.Err? {
              return found;
            }
            files := found.value;
        }
      }
      i := i + 1;
    }
    return Ok(files);
  }

  /** A regular file with this digest lies at this path, outside the state directory. */
  predicate HasFile(entries: seq<Entry>, root: Path, path: Path, digest: Digest)
    decreases entries
  {
    exists i :: 0 <= i < |entries| && HasFileIn(entries[i], root, path, digest)
  }

  predicate HasFileIn(entry: Entry, root: Path, path: Path, digest: Digest)
    decreases entry
  {
    var here := Join(root, entry.name);
    !Excluded(here)
    && match entry.node
       case File(d) => here == path && d == digest
       case Directory(inner) => HasFile(inner, here, path, digest)
       case Special => false
  }

  lemma HasFileSplit(entries: seq<Entry>, root: Path, path: Path, digest: Digest)
    requires entries != []
    ensures HasFile(entries, root, path, digest)
            <==> HasFileIn(entries[0], root, path, digest) || HasFile(entries[1..], root, path, digest)
  {
    if HasFile(entries[1..], root, path, digest) {
      var i :| 0 <= i < |entries[1..]| && HasFileIn(entries[1..][i], root, path, digest);
      assert entries[1..][i] == entries[i + 1];
    }
    if HasFile(entries, root, path, digest) && !HasFileIn(entries[0], root, path, digest) {
      var i :| 0 <= i < |entries| && HasFileIn(entries[i], root, path, digest);
      assert entries[1..][i - 1] == entries[i];
    }
  }

  /** A finished walk lists exactly the regular files outside the state directory. */
  lemma {:induction false} WalkIsExact(entries: seq<Entry>, root: Path, known: Manifest)
    requires Visit(entries, root, known).Ok?
    ensures var files := Visit(entries, root, known).value;
            && (forall p :: p in known ==> p in files)
            && (forall p, d :: HasFile(entries, root, p, d) ==> p in files)
            && (forall p :: p in files ==>
                  (p in known && files[p] == known[p]) || HasFile(entries, root, p, files[p]))
    decreases entries
  {
    if entries != [] {
      var path := Join(root, entries[0].name);
      var files := Visit(entries, root, known).value;
      forall p, d ensures HasFile(entries, root, p, d)
          <==> HasFileIn(entries[0], root, p, d) || HasFile(entries[1..], root, p, d)
      {
        HasFileSplit(entries, root, p, d);
      }
      if Excluded(path) {
        WalkIsExact(entries[1..], root, known);
      } else if entries[0].node.File? {
        WalkIsExact(entries[1..], root, known[path := entries[0].node.digest]);
      } else {
        var inner := entries[0].node.entries;
        var found := Visit(inner, path, known).value;
        WalkIsExact(inner, path, known);
        WalkIsExact(entries[1..], root, found);
        forall p, d | HasFile(entries, root, p, d) ensures p in files {
          if HasFileIn(entries[0], root, p, d) {
            assert HasFile(inner, path, p, d);
            assert p in found;
          } else {
            assert HasFile(entries[1..], root, p, d);
          }
        }
      }
    }
  }

  /** The copy made for a contained run leaves out what the walk leaves out. */
  function CopyTree(entries: seq<Entry>, root: Path): seq<Entry>
    decreases entries
  {
    if entries == [] then []
    else
      var path := Join(root, entries[0].name);
      (if Excluded(path) then [] else [Entry(entries[0].name, CopyNode(entries[0].node, path))])
      + CopyTree(entries[1..], root)
  }

  function CopyNode(node: Node, path: Path): Node
    decreases node
  {
    if node.Directory? then Directory(CopyTree(node.entries, path)) else node
  }

  /** Hence a fresh projection walks to the same manifest as the workspace it was taken from. */
  lemma {:induction false} CopyWalksAlike(entries: seq<Entry>, root: Path, known: Manifest)
    ensures Visit(CopyTree(entries, root), root, known) == Visit(entries, root, known)
    decreases entries
  {
    if entries != [] {
      var path := Join(root, entries[0].name);
      var rest := CopyTree(entries[1..], root);
      if Excluded(path) {
        assert CopyTree(entries, root) == rest;
        CopyWalksAlike(entries[1..], root, known);
      } else {
        var copy := CopyTree(entries, root);
        assert copy[1..] == rest;
        match entries[0].node
        case File(digest) => CopyWalksAlike(entries[1..], root, known[path := digest]);
        case Special =>
        case Directory(inner) =>
          CopyWalksAlike(inner, path, known);
          if Visit(inner, path, known).Ok? {
            CopyWalksAlike(entries[1..], root, Visit(inner, path, known).value);
          }
      }
    }
  }

  // ---------------------------------------------------------------- the listing order

  /** The UTF-16 code units of a character, which is what strings are compared by. */
  function Units(c: char): seq<nat> {
    if c as int < 0x1_0000 then [c as nat]
    else [0xD800 + (c as int - 0x1_0000) / 0x400, 0xDC00 + (c as int - 0x1_0000) % 0x400]
  }

  function Utf16(s: string): seq<nat> {
    if s == "" then [] else Units(s[0]) + Utf16(s[1..])
  }

  predicate UnitsLess(a: seq<nat>, b: seq<nat>) {
    if b == [] then false
    else if a == [] then true
    else if a[0] != b[0] then a[0] < b[0]
    else UnitsLess(a[1..], b[1..])
  }

  predicate Less(a: Path, b: Path) {
    UnitsLess(Utf16(a), Utf16(b))
  }

  /** Not the order of code points: an emoji comes before the replacement character. */
  lemma SurrogatesComeFirst()
    ensures Less("\U{1F600}", "\U{FFFD}") && !Less("\U{FFFD}", "\U{1F600}")
  {
    assert "\U{1F600}"[1..] == "" && "\U{FFFD}"[1..] == "";
    assert Utf16("\U{1F600}") == [0xD83D, 0xDE00] + [] && Utf16("\U{FFFD}") == [0xFFFD] + [];
  }

  lemma {:induction false} UnitsLessTrans(a: seq<nat>, b: seq<nat>, c: seq<nat>)
    requires UnitsLess(a, b) && UnitsLess(b, c)
    ensures UnitsLess(a, c)
    decreases |a|
  {
    if a != [] && a[0] == b[0] && b[0] == c[0] {
      UnitsLessTrans(a[1..], b[1..], c[1..]);
    }
  }

  lemma LessTrans(a: Path, b: Path, c: Path)
    requires Less(a, b) && Less(b, c)
    ensures Less(a, c)
  {
    UnitsLessTrans(Utf16(a), Utf16(b), Utf16(c));
  }

  lemma {:induction false} UnitsLessTotal(a: seq<nat>, b: seq<nat>)
    ensures a == b || UnitsLess(a, b) || UnitsLess(b, a)
    ensures !(UnitsLess(a, b) && UnitsLess(b, a)) && !UnitsLess(a, a)
    decreases |a|
  {
    if a != [] {
      UnitsLessTotal(a[1..], a[1..]);
      if b != [] && a[0] == b[0] {
        UnitsLessTotal(a[1..], b[1..]);
        assert a == [a[0]] + a[1..] && b == [b[0]] + b[1..];
      }
    }
  }

  /** The units of a character say how many they are: only the first of two lies between 0xD800 and 0xDBFF. */
  lemma SameUnits(c: char, d: char, a: seq<nat>, b: seq<nat>)
    requires Units(c) + a == Units(d) + b
    ensures c == d && a == b
  {
    var all := Units(c) + a;
    assert all[0] == Units(c)[0] == Units(d)[0];
    assert |Units(c)| == |Units(d)|;
    if |Units(c)| == 2 {
      assert all[1] == Units(c)[1] == Units(d)[1];
    }
    assert a == all[|Units(c)|..] && b == all[|Units(d)|..];
  }

  lemma {:induction false} Utf16Injective(a: string, b: string)
    requires Utf16(a) == Utf16(b)
    ensures a == b
    decreases |a|
  {
    if a != "" && b != "" {
      SameUnits(a[0], b[0], Utf16(a[1..]), Utf16(b[1..]));
      Utf16Injective(a[1..], b[1..]);
      assert a == [a[0]] + a[1..] && b == [b[0]] + b[1..];
    }
  }

  lemma LessTotal(a: Path, b: Path)
    ensures a == b || Less(a, b) || Less(b, a)
    ensures !(Less(a, b) && Less(b, a)) && !Less(a, a)
  {
    UnitsLessTotal(Utf16(a), Utf16(b));
    if Utf16(a) == Utf16(b) {
      Utf16Injective(a, b);
    }
  }

  lemma {:induction false} UnitsPrefixIsLess(a: seq<nat>, more: seq<nat>)
    requires more != []
    ensures UnitsLess(a, a + more)
    decreases |a|
  {
    if a != [] {
      assert (a + more)[1..] == a[1..] + more;
      UnitsPrefixIsLess(a[1..], more);
    }
  }

  lemma {:induction false} Utf16Concat(a: string, b: string)
    ensures Utf16(a + b) == Utf16(a) + Utf16(b)
    decreases |a|
  {
    if a == "" {
      assert a + b == b;
    } else {
      assert (a + b)[1..] == a[1..] + b;
      Utf16Concat(a[1..], b);
      assert Units(a[0]) + (Utf16(a[1..]) + Utf16(b)) == Units(a[0]) + Utf16(a[1..]) + Utf16(b);
    }
  }

  lemma PrefixIsLess(a: Path, b: Path)
    requires a < b
    ensures Less(a, b)
  {
    var more := b[|a|..];
    assert b == a + more;
    Utf16Concat(a, more);
    UnitsPrefixIsLess(Utf16(a), Utf16(more));
  }

  predicate Sorted(ps: seq<Path>) {
    forall i, j :: 0 <= i < j < |ps| ==> Less(ps[i], ps[j])
  }

  function Elements(ps: seq<Path>): set<Path> {
    set p | p in ps
  }

  /** `Array.from(paths).sort()` for a set of paths. */
  method SortPaths(paths: set<Path>) returns (ps: seq<Path>)
    ensures Sorted(ps) && Elements(ps) == paths
  {
    ps := [];
    var rest := paths;
    while rest != {}
      invariant rest <= paths && Sorted(ps) && Elements(ps) == paths - rest
      decreases rest
    {
      var p :| p in rest;
      ps := Insert(ps, p);
      rest := rest - {p};
    }
  }

  method Insert(ps: seq<Path>, p: Path) returns (r: seq<Path>)
    requires Sorted(ps) && p !in Elements(ps)
    ensures Sorted(r) && Elements(r) == Elements(ps) + {p}
  {
    hide Less;
    var i := 0;
    while i < |ps| && Less(ps[i], p)
      invariant 0 <= i <= |ps|
      invariant forall k :: 0 <= k < i ==> Less(ps[k], p)
    {
      i := i + 1;
    }
    forall k | i <= k < |ps| ensures Less(p, ps[k]) {
      assert ps[i] in Elements(ps);
      LessTotal(p, ps[i]);
      if i < k {
        LessTrans(p, ps[i], ps[k]);
      }
    }
    r := ps[..i] + [p] + ps[i..];
    assert forall q :: q in r <==> q in ps[..i] || q == p || q in ps[i..];
    assert ps == ps[..i] + ps[i..];
  }

  // ---------------------------------------------------------------- the comparison

  datatype Kind = Write | Delete

  datatype Change = Change(kind: Kind, path: Path)

  datatype Diff = Diff(changes: seq<Change>, conflicts: seq<Path>)

  function Get(m: Manifest, p: Path): Option<Digest> {
    if p in m then Some(m[p]) else None
  }

  function ChangedPaths(changes: seq<Change>): seq<Path> {
    seq(|changes|, i requires 0 <= i < |changes| => changes[i].path)
  }

  /** What a diff has to be: which paths, in which list, in which order, and of which kind. */
  ghost predicate IsDiff(b: Manifest, w: Manifest, p: Manifest, d: Diff) {
    && Sorted(ChangedPaths(d.changes)) && Sorted(d.conflicts)
    && (forall path :: path in ChangedPaths(d.changes) <==> Get(p, path) != Get(b, path) && Get(w, path) == Get(b, path))
    && (forall path :: path in d.conflicts <==> Get(p, path) != Get(b, path) && Get(w, path) != Get(b, path))
    && (forall c :: c in d.changes ==> (c.kind == Write <==> c.path in p))
  }

  method DiffWorkspaceProjection(baseline: Manifest, workspace: Manifest, projection: Manifest) returns (d: Diff)
    ensures IsDiff(baseline, workspace, projection, d)
  {
    hide Less;
    var paths := SortPaths(baseline.Keys + projection.Keys);
    var changes: seq<Change> := [];
    var conflicts: seq<Path> := [];
    for i := 0 to |paths|
      invariant Upto(baseline, workspace, projection, paths[..i], changes, conflicts)
    {
      hide Upto;
      var path := paths[i];
      assert paths[..i + 1] == paths[..i] + [path];
      assert forall k :: 0 <= k < i ==> Less(paths[..i][k], path);
      hide Sorted;
      var before, after, current := Get(baseline, path), Get(projection, path), Get(workspace, path);
      if before == after {
        UptoSkipped(baseline, workspace, projection, paths[..i], changes, conflicts, path);
        continue;
      }
      if before.None? {
        if current.Some? {
          UptoConflict(baseline, workspace, projection, paths[..i], changes, conflicts, path);
          conflicts := conflicts + [path];
          continue;
        }
        UptoChange(baseline, workspace, projection, paths[..i], changes, conflicts, Change(Write, path));
        changes := changes + [Change(Write, path)];
        continue;
      }
      if after.None? {
        if current != before {
          UptoConflict(baseline, workspace, projection, paths[..i], changes, conflicts, path);
          conflicts := conflicts + [path];
          continue;
        }
        UptoChange(baseline, workspace, projection, paths[..i], changes, conflicts, Change(Delete, path));
        changes := changes + [Change(Delete, path)];
        continue;
      }
      if current != before {
        UptoConflict(baseline, workspace, projection, paths[..i], changes, conflicts, path);
        conflicts := conflicts + [path];
        continue;
      }
      UptoChange(baseline, workspace, projection, paths[..i], changes, conflicts, Change(Write, path));
      changes := changes + [Change(Write, path)];
    }
    assert paths[..|paths|] == paths;
    UptoAll(baseline, workspace, projection, paths, changes, conflicts);
    d := Diff(changes, conflicts);
  }

  /** IsDiff restricted to the paths looked at so far. */
  ghost predicate Upto(b: Manifest, w: Manifest, p: Manifest, seen: seq<Path>, changes: seq<Change>,
                       conflicts: seq<Path>) {
    && Sorted(ChangedPaths(changes)) && Sorted(conflicts)
    && (forall path :: path in ChangedPaths(changes)
          <==> path in seen && Get(p, path) != Get(b, path) && Get(w, path) == Get(b, path))
    && (forall path :: path in conflicts
          <==> path in seen && Get(p, path) != Get(b, path) && Get(w, path) != Get(b, path))
    && (forall c :: c in changes ==> (c.kind == Write <==> c.path in p))
  }

  lemma UptoAll(b: Manifest, w: Manifest, p: Manifest, paths: seq<Path>, changes: seq<Change>, conflicts: seq<Path>)
    requires Upto(b, w, p, paths, changes, conflicts) && Elements(paths) == b.Keys + p.Keys
    ensures IsDiff(b, w, p, Diff(changes, conflicts))
  {
    hide Sorted;
    forall path | Get(p, path) != Get(b, path) ensures path in paths {
      assert path in Elements(paths);
    }
  }

  lemma UptoSkipped(b: Manifest, w: Manifest, p: Manifest, seen: seq<Path>, changes: seq<Change>,
                    conflicts: seq<Path>, path: Path)
    requires Upto(b, w, p, seen, changes, conflicts) && Get(p, path) == Get(b, path)
    ensures Upto(b, w, p, seen + [path], changes, conflicts)
  {
  }

  lemma UptoConflict(b: Manifest, w: Manifest, p: Manifest, seen: seq<Path>, changes: seq<Change>,
                     conflicts: seq<Path>, path: Path)
    requires Upto(b, w, p, seen, changes, conflicts) && Get(p, path) != Get(b, path) && Get(w, path) != Get(b, path)
    requires forall k :: 0 <= k < |seen| ==> Less(seen[k], path)
    ensures Upto(b, w, p, seen + [path], changes, conflicts + [path])
  {
    Append(seen, path, conflicts);
    hide Sorted;
  }

  lemma UptoChange(b: Manifest, w: Manifest, p: Manifest, seen: seq<Path>, changes: seq<Change>,
                   conflicts: seq<Path>, c: Change)
    requires Upto(b, w, p, seen, changes, conflicts)
    requires Get(p, c.path) != Get(b, c.path) && Get(w, c.path) == Get(b, c.path) && (c.kind == Write <==> c.path in p)
    requires forall k :: 0 <= k < |seen| ==> Less(seen[k], c.path)
    ensures Upto(b, w, p, seen + [c.path], changes + [c], conflicts)
  {
    AppendChange(seen, c, changes);
    hide Sorted;
    hide ChangedPaths;
  }

  lemma Append(seen: seq<Path>, path: Path, ps: seq<Path>)
    requires Sorted(ps) && (forall q :: q in ps ==> q in seen)
    requires forall k :: 0 <= k < |seen| ==> Less(seen[k], path)
    ensures Sorted(ps + [path])
  {
    forall i | 0 <= i < |ps| ensures Less(ps[i], path) {
      assert ps[i] in seen;
    }
  }

  lemma AppendChange(seen: seq<Path>, c: Change, changes: seq<Change>)
    requires Sorted(ChangedPaths(changes)) && (forall q :: q in ChangedPaths(changes) ==> q in seen)
    requires forall k :: 0 <= k < |seen| ==> Less(seen[k], c.path)
    ensures ChangedPaths(changes + [c]) == ChangedPaths(changes) + [c.path]
    ensures Sorted(ChangedPaths(changes + [c]))
  {
    Append(seen, c.path, ChangedPaths(changes));
    assert ChangedPaths(changes + [c]) == ChangedPaths(changes) + [c.path];
  }
}
