/**
 Canonical paths and the string test that decides whether one lies inside another, on POSIX paths.
 */
module PathContainment {
  import opened Common

  type Path = string

  predicate IsSegment(x: string) {
    x != "" && '/' !in x
  }

  predicate Segments(segs: seq<string>) {
    forall i :: 0 <= i < |segs| ==> IsSegment(segs[i])
  }

  function Tail(segs: seq<string>): string {
    if segs == [] then "" else "/" + segs[0] + Tail(segs[1..])
  }

  /** The path with these segments. */
  function Render(segs: seq<string>): Path {
    if segs == [] then "/" else Tail(segs)
  }

  // ---------------------------------------------------------------- path.resolve

  function Split(p: string): (parts: seq<string>)
    ensures |parts| > 0
    ensures forall i :: 0 <= i < |parts| ==> '/' !in parts[i]
  {
    if p == "" then [""]
    else
      var rest := Split(p[1..]);
      if p[0] == '/' then [""] + rest else [[p[0]] + rest[0]] + rest[1..]
  }

  /** Empty parts and "." are dropped, and ".." takes back one segment while there is one. */
  function Normalize(done: seq<string>, parts: seq<string>): seq<string>
    decreases |parts|
  {
    if parts == [] then done
    else if parts[0] == "" || parts[0] == "." then Normalize(done, parts[1..])
    else if parts[0] == ".." then Normalize(if done == [] then [] else done[..|done| - 1], parts[1..])
    else Normalize(done + [parts[0]], parts[1..])
  }

  /** The segments of `path.resolve` in a process whose working directory is `cwd`. */
  function Resolve(cwd: seq<string>, p: string): seq<string> {
    Normalize(if p != "" && p[0] == '/' then [] else cwd, Split(p))
  }

  predicate Plain(segs: seq<string>) {
    Segments(segs) && "." !in segs && ".." !in segs
  }

  lemma {:induction false} NormalizedIsPlain(done: seq<string>, parts: seq<string>)
    requires Plain(done) && forall i :: 0 <= i < |parts| ==> '/' !in parts[i]
    ensures Plain(Normalize(done, parts))
    decreases |parts|
  {
    if parts != [] {
      if parts[0] == "" || parts[0] == "." {
        NormalizedIsPlain(done, parts[1..]);
      } else if parts[0] == ".." {
        NormalizedIsPlain(if done == [] then [] else done[..|done| - 1], parts[1..]);
      } else {
        NormalizedIsPlain(done + [parts[0]], parts[1..]);
      }
    }
  }

  /** Plain segments pass through unchanged. */
  lemma {:induction false} NormalizeKeepsPlain(done: seq<string>, segs: seq<string>)
    requires Plain(segs)
    ensures Normalize(done, segs) == done + segs
    decreases |segs|
  {
    if segs == [] {
      assert done + segs == done;
    } else {
      assert segs[0] in segs;
      NormalizeKeepsPlain(done + [segs[0]], segs[1..]);
      assert done + [segs[0]] + segs[1..] == done + segs;
    }
  }

  lemma {:induction false} SplitAfter(a: string, rest: string)
    requires '/' !in a
    ensures Split(a + rest) == [a + Split(rest)[0]] + Split(rest)[1..]
    decreases |a|
  {
    if a == "" {
      assert a + rest == rest && a + Split(rest)[0] == Split(rest)[0];
    } else {
      assert a[0] in a && (a + rest)[1..] == a[1..] + rest;
      SplitAfter(a[1..], rest);
      assert [a[0]] + (a[1..] + Split(rest)[0]) == a + Split(rest)[0];
    }
  }

  lemma {:induction false} SplitTail(segs: seq<string>)
    requires Segments(segs)
    ensures Split(Tail(segs)) == [""] + segs
    decreases |segs|
  {
    if segs != [] {
      SplitTail(segs[1..]);
      SplitAfter(segs[0], Tail(segs[1..]));
      assert Tail(segs)[0] == '/' && Tail(segs)[1..] == segs[0] + Tail(segs[1..]);
      assert segs[0] + "" == segs[0] && segs == [segs[0]] + segs[1..];
      assert ([""] + segs[1..])[1..] == segs[1..];
    }
  }

  lemma {:induction false} SplitConcat(p: string, q: string)
    ensures Split(p + ("/" + q)) == Split(p) + Split(q)
    decreases |p|
  {
    if p == "" {
      assert p + ("/" + q) == "/" + q && ("/" + q)[1..] == q;
    } else {
      var all := p + ("/" + q);
      SplitStep(p);
      SplitStep(all);
      hide Split;
      assert all[0] == p[0] && all[1..] == p[1..] + ("/" + q);
      SplitConcat(p[1..], q);
      PutFirstConcat(p[0], Split(p[1..]), Split(q));
    }
  }

  function PutFirst(c: char, parts: seq<string>): seq<string>
    requires parts != []
  {
    if c == '/' then [""] + parts else [[c] + parts[0]] + parts[1..]
  }

  lemma SplitStep(p: string)
    requires p != ""
    ensures Split(p) == PutFirst(p[0], Split(p[1..]))
  {
  }

  lemma PutFirstConcat(c: char, a: seq<string>, b: seq<string>)
    requires a != []
    ensures PutFirst(c, a + b) == PutFirst(c, a) + b
  {
    assert (a + b)[0] == a[0] && (a + b)[1..] == a[1..] + b;
  }

  lemma {:induction false} SplitName(name: string)
    requires '/' !in name
    ensures Split(name) == [name]
    decreases |name|
  {
    if name != "" {
      assert name[0] in name && '/' !in name[1..];
      SplitName(name[1..]);
      assert [name[0]] + name[1..] == name;
    }
  }

  lemma {:induction false} NormalizeConcat(done: seq<string>, a: seq<string>, b: seq<string>)
    ensures Normalize(done, a + b) == Normalize(Normalize(done, a), b)
    decreases |a|
  {
    if a == [] {
      assert a + b == b;
    } else {
      assert (a + b)[0] == a[0] && (a + b)[1..] == a[1..] + b;
      if a[0] == "" || a[0] == "." {
        NormalizeConcat(done, a[1..], b);
      } else if a[0] == ".." {
        NormalizeConcat(if done == [] then [] else done[..|done| - 1], a[1..], b);
      } else {
        NormalizeConcat(done + [a[0]], a[1..], b);
      }
    }
  }

  /** One more name after a slash: `..` takes back the last segment if there is one, nothing and `.` stay put. */
  function Onward(segs: seq<string>, name: string): seq<string> {
    if name == "" || name == "." then segs
    else if name != ".." then segs + [name]
    else if segs == [] then segs
    else segs[..|segs| - 1]
  }

  lemma NormalizeOne(segs: seq<string>, name: string)
    ensures Normalize(segs, [name]) == Onward(segs, name)
  {
    assert [name][1..] == [];
  }

  /**
   What `path.resolve` does, name by name: a relative path starts from the working directory, an absolute one
   from the root, and each further name goes on from there.
   */
  lemma ResolveMeaning(cwd: seq<string>, p: string, name: string)
    requires '/' !in name
    ensures Resolve(cwd, name) == Onward(cwd, name)
    ensures Resolve(cwd, "/" + name) == Onward([], name)
    ensures p != "" ==> Resolve(cwd, p + ("/" + name)) == Onward(Resolve(cwd, p), name)
  {
    SplitName(name);
    assert name != "" ==> name[0] in name;
    NormalizeOne(cwd, name);
    SplitConcat("", name);
    assert "" + ("/" + name) == "/" + name;
    NormalizeConcat([], [""], [name]);
    NormalizeOne([], "");
    NormalizeOne([], name);
    if p != "" {
      SplitConcat(p, name);
      assert (p + ("/" + name))[0] == p[0];
      var start := if p[0] == '/' then [] else cwd;
      NormalizeConcat(start, Split(p), [name]);
      NormalizeOne(Resolve(cwd, p), name);
    }
  }

  lemma PlainResolvesToItself(cwd: seq<string>, segs: seq<string>)
    requires Plain(segs)
    ensures Resolve(cwd, Render(segs)) == segs
  {
    if segs == [] {
      assert "/"[1..] == "" && Split("/") == [""] + [""];
      assert Normalize([], ["", ""]) == Normalize([], ["", ""][1..]) == Normalize([], ["", ""][1..][1..]);
    } else {
      SplitTail(segs);
      NormalizeKeepsPlain([], segs);
      assert ([""] + segs)[1..] == segs && [] + segs == segs;
    }
  }

  /** `path.resolve` returns a plain path, and a plain path resolves to itself from anywhere. */
  lemma ResolvedIsPlain(cwd: seq<string>, p: string)
    requires Plain(cwd)
    ensures Plain(Resolve(cwd, p)) && Resolve(cwd, Render(Resolve(cwd, p))) == Resolve(cwd, p)
  {
    NormalizedIsPlain(if p != "" && p[0] == '/' then [] else cwd, Split(p));
    PlainResolvesToItself(cwd, Resolve(cwd, p));
  }

  /** A path spells its segments. */
  lemma RenderInjective(a: seq<string>, b: seq<string>)
    requires Segments(a) && Segments(b) && Render(a) == Render(b)
    ensures a == b
  {
    if a != [] && b != [] {
      SplitTail(a);
      SplitTail(b);
      assert ([""] + a)[1..] == a && ([""] + b)[1..] == b;
    } else if a != [] {
      TailLength(a);
    } else if b != [] {
      TailLength(b);
    }
  }

  // ---------------------------------------------------------------- parents and names

  function LastSlash(p: string): (k: int)
    ensures -1 <= k < |p|
    ensures k >= 0 ==> p[k] == '/'
    ensures forall i :: k < i < |p| ==> p[i] != '/'
  {
    if p == "" then -1
    else if p[|p| - 1] == '/' then |p| - 1
    else LastSlash(p[..|p| - 1])
  }

  function Dirname(p: Path): Path {
    if LastSlash(p) <= 0 then "/" else p[..LastSlash(p)]
  }

  function Basename(p: Path): string {
    p[LastSlash(p) + 1..]
  }

  lemma {:induction false} TailSnoc(segs: seq<string>, last: string)
    ensures Tail(segs + [last]) == Tail(segs) + "/" + last
    decreases |segs|
  {
    if segs == [] {
      assert [last][1..] == [] && [] + [last] == [last];
      assert Tail([last]) == "/" + last + "";
    } else {
      assert (segs + [last])[1..] == segs[1..] + [last];
      TailSnoc(segs[1..], last);
    }
  }

  lemma LastSlashIs(init: string, last: string)
    requires '/' !in last
    ensures LastSlash(init + ("/" + last)) == |init|
    ensures (init + ("/" + last))[..|init|] == init && (init + ("/" + last))[|init| + 1..] == last
  {
    hide LastSlash;
    var end := "/" + last;
    var p := init + end;
    assert |end| == 1 + |last| && end[0] == '/' && end[1..] == last;
    assert p[|init|] == end[0] && p[..|init|] == init && p[|init| + 1..] == end[1..];
    forall j | |init| < j < |p| ensures p[j] != '/' {
      assert p[j] == p[|init| + 1..][j - |init| - 1] && p[j] in last;
    }
  }

  lemma ParentOf(segs: seq<string>)
    requires Segments(segs) && segs != []
    ensures Dirname(Render(segs)) == Render(segs[..|segs| - 1])
    ensures Basename(Render(segs)) == segs[|segs| - 1]
    ensures Dirname(Render(segs)) != Render(segs)
  {
    var init, last := segs[..|segs| - 1], segs[|segs| - 1];
    assert segs == init + [last];
    TailSnoc(init, last);
    LastSlashIs(Tail(init), last);
    assert Render(segs) == Tail(init) + ("/" + last);
    hide LastSlash;
    if init != [] {
      assert |Tail(init)| > 0;
    }
  }

  // ---------------------------------------------------------------- canonicalization

  datatype Resolution = Resolved(path: Path) | Missing | LookupError

  function Reversed(s: seq<string>): seq<string> {
    if s == [] then [] else Reversed(s[1..]) + [s[0]]
  }

  lemma {:induction false} ReversedSnoc(s: seq<string>, x: string)
    ensures Reversed(s + [x]) == [x] + Reversed(s)
    decreases |s|
  {
    if s != [] {
      assert (s + [x])[1..] == s[1..] + [x];
      ReversedSnoc(s[1..], x);
    } else {
      assert [] + [x] == [x] && [x][1..] == [];
    }
  }

  /** `path.join` of a normalized path and plain segments. */
  function JoinPath(p: Path, segs: seq<string>): Path {
    if segs == [] then p else if p == "/" then Tail(segs) else p + Tail(segs)
  }

  /** Climbing from the first `k` segments: the answer of the first lookup that is not "missing". */
  function Climb(lookup: Path -> Resolution, segs: seq<string>, k: nat): Option<Path>
    requires k <= |segs|
  {
    match lookup(Render(segs[..k]))
    case Resolved(p) => Some(JoinPath(p, segs[k..]))
    case LookupError => None
    case Missing => if k == 0 then Some(Render(segs)) else Climb(lookup, segs, k - 1)
  }

  /** The canonical form of any string taken as a path. */
  function Canonical(lookup: Path -> Resolution, cwd: seq<string>, p: string): Option<Path> {
    Climb(lookup, Resolve(cwd, p), |Resolve(cwd, p)|)
  }

  method CanonicalizePathForContainment(targetPath: string, cwd: seq<string>, lookup: Path -> Resolution)
      returns (canonical: Option<Path>)
    requires Plain(cwd)
    ensures canonical == Canonical(lookup, cwd, targetPath)
  {
    ResolvedIsPlain(cwd, targetPath);
    ghost var segs := Resolve(cwd, targetPath);
    assert Segments(segs);
    hide Resolve;
    hide Plain;
    hide LastSlash;
    var missingSegments: seq<string> := [];
    var currentPath := Render(Resolve(cwd, targetPath));
    ghost var depth := |segs|;
    assert segs[..|segs|] == segs;
    while true
      invariant 0 <= depth <= |segs| && currentPath == Render(segs[..depth])
      invariant Reversed(missingSegments) == segs[depth..]
      invariant Climb(lookup, segs, depth) == Climb(lookup, segs, |segs|)
      decreases depth
    {
      var resolved := lookup(currentPath);
      if resolved.Resolved? {
        if missingSegments == [] {
          return Some(resolved.path);
        }
        return Some(JoinPath(resolved.path, Reversed(missingSegments)));
      }
      if resolved.LookupError? {
        return None;
      }
      var parentPath := Dirname(currentPath);
      if depth > 0 {
        ParentOf(segs[..depth]);
        assert segs[..depth][..depth - 1] == segs[..depth - 1];
      }
      if parentPath == currentPath {
        return Some(Render(Resolve(cwd, targetPath)));
      }
      ReversedSnoc(missingSegments, Basename(currentPath));
      assert [segs[depth - 1]] + segs[depth..] == segs[depth - 1..];
      missingSegments := missingSegments + [Basename(currentPath)];
      currentPath := parentPath;
      depth := depth - 1;
    }
  }

  /** The first `k` segments name something whose lookup is not "missing", and nothing longer does. */
  ghost predicate DeepestKnown(lookup: Path -> Resolution, segs: seq<string>, k: nat) {
    && k <= |segs| && !lookup(Render(segs[..k])).Missing?
    && forall j :: k < j <= |segs| ==> lookup(Render(segs[..j])).Missing?
  }

  lemma {:induction false} ClimbSkips(lookup: Path -> Resolution, segs: seq<string>, k: nat, n: nat)
    requires k <= n <= |segs| && forall j :: k < j <= n ==> lookup(Render(segs[..j])).Missing?
    ensures Climb(lookup, segs, n) == Climb(lookup, segs, k)
    decreases n
  {
    if k < n {
      ClimbSkips(lookup, segs, k, n - 1);
    }
  }

  /**
   The answer is the real path of the deepest existing ancestor followed by the missing segments in
   their order; none if that ancestor's lookup fails; the path itself if nothing up to "/" exists.
   */
  lemma CanonicalMeaning(lookup: Path -> Resolution, segs: seq<string>, k: nat, realPath: Path)
    ensures DeepestKnown(lookup, segs, k) && lookup(Render(segs[..k])) == Resolved(realPath) ==>
              Climb(lookup, segs, |segs|) == Some(JoinPath(realPath, segs[k..]))
    ensures DeepestKnown(lookup, segs, k) && lookup(Render(segs[..k])).LookupError? ==>
              Climb(lookup, segs, |segs|) == None
    ensures (forall j :: 0 <= j <= |segs| ==> lookup(Render(segs[..j])).Missing?) ==>
              Climb(lookup, segs, |segs|) == Some(Render(segs))
  {
    if DeepestKnown(lookup, segs, k) {
      ClimbSkips(lookup, segs, k, |segs|);
    }
    if forall j :: 0 <= j <= |segs| ==> lookup(Render(segs[..j])).Missing? {
      ClimbSkips(lookup, segs, 0, |segs|);
    }
  }

  /** If every lookup either fails to find or names itself, a path without symbolic links is its own canonical form. */
  lemma WithoutLinksNothingMoves(lookup: Path -> Resolution, segs: seq<string>)
    requires Segments(segs)
    requires forall j :: 0 <= j <= |segs| ==>
               lookup(Render(segs[..j])).Missing? || lookup(Render(segs[..j])) == Resolved(Render(segs[..j]))
    ensures Climb(lookup, segs, |segs|) == Some(Render(segs))
  {
    ClimbWithoutLinks(lookup, segs, |segs|);
  }

  lemma {:induction false} ClimbWithoutLinks(lookup: Path -> Resolution, segs: seq<string>, k: nat)
    requires Segments(segs) && k <= |segs|
    requires forall j :: 0 <= j <= |segs| ==>
               lookup(Render(segs[..j])).Missing? || lookup(Render(segs[..j])) == Resolved(Render(segs[..j]))
    ensures Climb(lookup, segs, k) == Some(Render(segs))
  {
    if !lookup(Render(segs[..k])).Missing? {
      SegmentsMeanPrefix(segs[..k], segs);
      assert JoinPath(Render(segs[..k]), segs[k..]) == Render(segs) by {
        if segs[k..] == [] {
          assert segs[..k] == segs;
        } else if k > 0 {
          SlashThenSegment(segs[..k]);
        }
      }
    } else if k > 0 {
      ClimbWithoutLinks(lookup, segs, k - 1);
    }
  }

  // ---------------------------------------------------------------- the string test

  predicate IsNormalizedPathInsideRoot(target: Path, root: Path) {
    target == root || root + "/" <= target
  }

  lemma FirstSlashAt(a: string, rest: string)
    requires '/' !in a && (rest == "" || rest[0] == '/')
    ensures forall i :: 0 <= i < |a| ==> (a + rest)[i] != '/'
    ensures rest != "" ==> (a + rest)[|a|] == '/'
  {
    forall i | 0 <= i < |a| ensures (a + rest)[i] != '/' {
      assert (a + rest)[i] in a;
    }
  }

  lemma SameHead(a: string, restA: string, b: string, restB: string)
    requires '/' !in a && '/' !in b
    requires restA != "" && restA[0] == '/' && (restB == "" || restB[0] == '/')
    requires a + restA <= b + restB
    ensures a == b && restA <= restB
  {
    var short, long := a + restA, b + restB;
    FirstSlashAt(a, restA);
    FirstSlashAt(b, restB);
    assert forall i :: 0 <= i < |short| ==> short[i] == long[i];
    assert |b| <= |a|;
    assert |a| <= |b|;
    assert a == short[..|a|] == long[..|b|] == b;
    assert restA == short[|a|..] && restB == long[|b|..];
  }

  /** Below a root other than "/", the test looks at whole segments. */
  lemma {:induction false} PrefixMeansSegments(root: seq<string>, target: seq<string>)
    requires Segments(root) && Segments(target) && Tail(root) + "/" <= Tail(target) + "/"
    ensures root <= target
    decreases |root|
  {
    if root != [] {
      TailLength(root);
      if target != [] {
        var a, b := root[0], target[0];
        assert Tail(root) + "/" == "/" + (a + (Tail(root[1..]) + "/"));
        assert Tail(target) + "/" == "/" + (b + (Tail(target[1..]) + "/"));
        DropSlash(a + (Tail(root[1..]) + "/"), b + (Tail(target[1..]) + "/"));
        StartsWithSlash(root[1..]);
        StartsWithSlash(target[1..]);
        SameHead(a, Tail(root[1..]) + "/", b, Tail(target[1..]) + "/");
        PrefixMeansSegments(root[1..], target[1..]);
        assert root == [a] + root[1..] && target == [b] + target[1..];
      }
    }
  }

  lemma TailLength(segs: seq<string>)
    requires Segments(segs)
    ensures segs != [] ==> |Tail(segs)| >= 2
  {
  }

  lemma SlashThenSegment(segs: seq<string>)
    requires Segments(segs) && segs != []
    ensures Tail(segs) != "/"
  {
    TailLength(segs);
  }

  lemma DropSlash(a: string, b: string)
    requires "/" + a <= "/" + b
    ensures a <= b
  {
    assert a == ("/" + a)[1..] && b == ("/" + b)[1..];
  }

  lemma StartsWithSlash(segs: seq<string>)
    ensures (Tail(segs) + "/")[0] == '/'
  {
  }

  lemma {:induction false} SegmentsMeanPrefix(root: seq<string>, target: seq<string>)
    requires root <= target
    ensures Tail(target) == Tail(root) + Tail(target[|root|..])
    decreases |root|
  {
    if root != [] {
      assert root[0] == target[0] && root[1..] <= target[1..];
      assert target[1..][|root| - 1..] == target[|root|..];
      SegmentsMeanPrefix(root[1..], target[1..]);
    }
  }

  /**
   The string test agrees with "the root's segments begin the target's" for every root but "/";
   the root "/" contains only itself.
   */
  lemma InsideMeansSegments(target: seq<string>, root: seq<string>)
    requires Segments(target) && Segments(root)
    ensures IsNormalizedPathInsideRoot(Render(target), Render(root))
            <==> root <= target && (root != [] || target == [])
  {
    if root == [] {
      if target != [] {
        NoDoubleSlash(target);
      }
    } else {
      TailLength(root);
      if IsNormalizedPathInsideRoot(Render(target), Render(root)) && target != [] {
        assert Tail(root) + "/" <= Tail(target) + "/";
        PrefixMeansSegments(root, target);
      }
      if root <= target {
        SegmentsMeanPrefix(root, target);
        assert root == target || target[|root|..] != [];
      }
    }
  }

  lemma NoDoubleSlash(target: seq<string>)
    requires Segments(target) && target != []
    ensures Tail(target) != "/" && !("//" <= Tail(target))
  {
    assert IsSegment(target[0]) && target[0][0] in target[0];
    assert Tail(target)[1] == target[0][0];
  }

  /** So the test holds of two sibling names never, however similar their spelling. */
  lemma SiblingsAreOutside(parent: seq<string>, a: string, b: string, below: seq<string>)
    requires Segments(parent) && IsSegment(a) && IsSegment(b) && Segments(below) && a != b
    ensures !IsNormalizedPathInsideRoot(Render(parent + [b] + below), Render(parent + [a]))
  {
    InsideMeansSegments(parent + [b] + below, parent + [a]);
    assert (parent + [a])[|parent|] == a && (parent + [b] + below)[|parent|] == b;
  }

  // ---------------------------------------------------------------- the workspace test

  predicate Inside(target: Option<Path>, root: Option<Path>) {
    target.Some? && root.Some? && IsNormalizedPathInsideRoot(target.value, root.value)
  }

  method IsPathInsideWorkspace(targetPath: string, workspaceRoots: seq<string>, cwd: seq<string>,
                               lookup: Path -> Resolution) returns (inside: bool)
    requires Plain(cwd)
    ensures inside <==> exists i :: 0 <= i < |workspaceRoots| &&
                          Inside(Canonical(lookup, cwd, targetPath), Canonical(lookup, cwd, workspaceRoots[i]))
  {
    for i := 0 to |workspaceRoots|
      invariant forall k :: 0 <= k < i ==>
                  !Inside(Canonical(lookup, cwd, targetPath), Canonical(lookup, cwd, workspaceRoots[k]))
    {
      var normalizedRoot := CanonicalizePathForContainment(workspaceRoots[i], cwd, lookup);
      var normalizedTarget := CanonicalizePathForContainment(targetPath, cwd, lookup);
      if Inside(normalizedTarget, normalizedRoot) {
        return true;
      }
    }
    return false;
  }

  /** What `realpath` finds is an absolute path in normal form. */
  ghost predicate FindsRealPaths(lookup: Path -> Resolution) {
    forall p :: lookup(p).Resolved? ==> exists segs :: Segments(segs) && lookup(p).path == Render(segs)
  }

  lemma JoinRenders(a: seq<string>, b: seq<string>)
    requires Segments(a) && Segments(b)
    ensures Segments(a + b) && JoinPath(Render(a), b) == Render(a + b)
  {
    if b == [] {
      assert a + b == a;
    } else if a == [] {
      assert a + b == b;
    } else {
      SegmentsMeanPrefix(a, a + b);
      SlashThenSegment(a);
    }
  }

  lemma {:induction false} ClimbRenders(lookup: Path -> Resolution, segs: seq<string>, k: nat)
      returns (actual: seq<string>)
    requires FindsRealPaths(lookup) && Segments(segs) && k <= |segs| && Climb(lookup, segs, k).Some?
    ensures Segments(actual) && Climb(lookup, segs, k) == Some(Render(actual))
    decreases k
  {
    var found := lookup(Render(segs[..k]));
    if found.Resolved? {
      var above :| Segments(above) && found.path == Render(above);
      JoinRenders(above, segs[k..]);
      actual := above + segs[k..];
    } else if k == 0 {
      actual := segs;
    } else {
      actual := ClimbRenders(lookup, segs, k - 1);
    }
  }

  /**
   Whatever symbolic links there are: when both canonical forms exist, the path is inside exactly when the
   segments of the root's canonical form begin those of the path's, the root "/" excepted.
   */
  lemma InsideWorkspaceMeansSegments(lookup: Path -> Resolution, cwd: seq<string>, target: string, root: string)
      returns (t: seq<string>, r: seq<string>)
    requires FindsRealPaths(lookup) && Plain(cwd)
    requires Canonical(lookup, cwd, target).Some? && Canonical(lookup, cwd, root).Some?
    ensures Segments(t) && Canonical(lookup, cwd, target) == Some(Render(t))
    ensures Segments(r) && Canonical(lookup, cwd, root) == Some(Render(r))
    ensures Inside(Canonical(lookup, cwd, target), Canonical(lookup, cwd, root)) <==> r <= t && (r != [] || t == [])
  {
    ResolvedIsPlain(cwd, target);
    ResolvedIsPlain(cwd, root);
    t := ClimbRenders(lookup, Resolve(cwd, target), |Resolve(cwd, target)|);
    r := ClimbRenders(lookup, Resolve(cwd, root), |Resolve(cwd, root)|);
    InsideMeansSegments(t, r);
  }

  /** Without symbolic links these are the segments of the paths themselves. */
  lemma WithoutLinksNamesDecide(lookup: Path -> Resolution, cwd: seq<string>, target: string, root: string)
    requires Plain(cwd)
    requires forall p :: lookup(p).Missing? || lookup(p) == Resolved(p)
    ensures var t, r := Resolve(cwd, target), Resolve(cwd, root);
            Inside(Canonical(lookup, cwd, target), Canonical(lookup, cwd, root)) <==> r <= t && (r != [] || t == [])
  {
    ResolvedIsPlain(cwd, target);
    ResolvedIsPlain(cwd, root);
    WithoutLinksNothingMoves(lookup, Resolve(cwd, target));
    WithoutLinksNothingMoves(lookup, Resolve(cwd, root));
    InsideMeansSegments(Resolve(cwd, target), Resolve(cwd, root));
  }
}
