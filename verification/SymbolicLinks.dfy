/**
 Canonical paths on a file system with symbolic links: when the canonical form is where the path leads.
 */
module SymbolicLinks {
  import opened Common
  import opened PathContainment

  datatype Entry = Directory | File | Link(absolute: bool, target: seq<string>)

  /** Everything but the root, by its segments. */
  type FileSystem = map<seq<string>, Entry>

  ghost predicate IsFileSystem(fs: FileSystem) {
    forall p :: p in fs ==>
      && p != [] && Segments(p) && IsDirectory(fs, p[..|p| - 1])
      && (fs[p].Link? ==> Segments(fs[p].target))
  }

  predicate IsDirectory(fs: FileSystem, p: seq<string>) {
    p == [] || (p in fs && fs[p].Directory?)
  }

  // ---------------------------------------------------------------- following a path

  /** What a path leads to: something, with so many links still to be followed; a free place; or an error. */
  datatype Place = There(path: seq<string>, hops: nat) | Nowhere(path: seq<string>) | Unusable

  /** From `at` on, following `hops` links at most. */
  function Follow(fs: FileSystem, at: seq<string>, rest: seq<string>, hops: nat): Place
    decreases hops, |rest|
  {
    if rest == [] then There(at, hops)
    else if !IsDirectory(fs, at) then Unusable
    else if rest[0] == "." then Follow(fs, at, rest[1..], hops)
    else if rest[0] == ".." then Follow(fs, if at == [] then [] else at[..|at| - 1], rest[1..], hops)
    else
      var next := at + [rest[0]];
      if next !in fs then Nowhere(next + rest[1..])
      else if !fs[next].Link? then Follow(fs, next, rest[1..], hops)
      else if hops == 0 then Unusable
      else Follow(fs, if fs[next].absolute then [] else at, fs[next].target + rest[1..], hops - 1)
  }

  /** Where the path leads, if anywhere. */
  function Leads(fs: FileSystem, segs: seq<string>, hops: nat): Option<seq<string>> {
    match Follow(fs, [], segs, hops)
    case There(p, _) => Some(p)
    case Nowhere(p) => Some(p)
    case Unusable => None
  }

  /** `realpath`, with its "no such file" told from its other errors. */
  function RealPath(fs: FileSystem, hops: nat): Path -> Resolution {
    (p: Path) =>
      match Follow(fs, [], Resolve([], p), hops)
      case There(q, _) => Resolved(Render(q))
      case Nowhere(_) => Missing
      case Unusable => LookupError
  }

  lemma {:induction false} FollowConcat(fs: FileSystem, at: seq<string>, a: seq<string>, b: seq<string>, hops: nat)
    ensures Follow(fs, at, a + b, hops)
            == match Follow(fs, at, a, hops)
               case There(p, left) => Follow(fs, p, b, left)
               case Nowhere(p) => Nowhere(p + b)
               case Unusable => Unusable
    decreases hops, |a|
  {
    if a == [] {
      assert a + b == b;
    } else if IsDirectory(fs, at) {
      assert (a + b)[0] == a[0] && (a + b)[1..] == a[1..] + b;
      var next := at + [a[0]];
      if a[0] == "." {
        FollowConcat(fs, at, a[1..], b, hops);
      } else if a[0] == ".." {
        FollowConcat(fs, if at == [] then [] else at[..|at| - 1], a[1..], b, hops);
      } else if next !in fs {
        assert next + (a[1..] + b) == next + a[1..] + b;
      } else if !fs[next].Link? {
        FollowConcat(fs, next, a[1..], b, hops);
      } else if hops > 0 {
        assert fs[next].target + (a[1..] + b) == fs[next].target + a[1..] + b;
        FollowConcat(fs, if fs[next].absolute then [] else at, fs[next].target + a[1..], b, hops - 1);
      }
    }
  }

  /** A free place is below something that is not there. */
  ghost predicate IsFree(fs: FileSystem, p: seq<string>) {
    exists i :: 0 < i <= |p| && p[..i] !in fs
  }

  lemma SegmentsConcat(a: seq<string>, b: seq<string>)
    requires Segments(a) && Segments(b)
    ensures Segments(a + b)
  {
  }

  lemma {:induction false} FollowedIs(fs: FileSystem, at: seq<string>, rest: seq<string>, hops: nat)
    requires IsFileSystem(fs) && Segments(at) && Segments(rest)
    ensures var place := Follow(fs, at, rest, hops);
            && (!place.Unusable? ==> Segments(place.path))
            && (place.Nowhere? ==> IsFree(fs, place.path))
    decreases hops, |rest|
  {
    if rest != [] && IsDirectory(fs, at) {
      var next, more := at + [rest[0]], rest[1..];
      assert Segments(more) && Segments(next);
      if rest[0] == "." {
        FollowedIs(fs, at, more, hops);
      } else if rest[0] == ".." {
        FollowedIs(fs, if at == [] then [] else at[..|at| - 1], more, hops);
      } else if next !in fs {
        SegmentsConcat(next, more);
        assert (next + more)[..|next|] == next;
      } else if !fs[next].Link? {
        hide Segments;
        hide IsFree;
        FollowedIs(fs, next, more, hops);
      } else if hops > 0 {
        SegmentsConcat(fs[next].target, more);
        assert Segments([]);
        hide Segments;
        hide IsFree;
        FollowedIs(fs, if fs[next].absolute then [] else at, fs[next].target + more, hops - 1);
      }
    }
  }

  lemma {:induction false} TakenIsNotFree(fs: FileSystem, p: seq<string>, i: nat)
    requires IsFileSystem(fs) && p in fs && 0 < i <= |p|
    ensures p[..i] in fs
    decreases |p|
  {
    if i == |p| {
      assert p[..i] == p;
    } else {
      var parent := p[..|p| - 1];
      TakenIsNotFree(fs, parent, i);
      assert parent[..i] == p[..i];
    }
  }

  // ---------------------------------------------------------------- the canonical form

  /** After `k` segments the path comes to a link that leads to a free place. */
  predicate DanglesAt(fs: FileSystem, segs: seq<string>, hops: nat, k: nat)
    requires k < |segs|
  {
    var place := Follow(fs, [], segs[..k], hops);
    && place.There? && place.path + [segs[k]] in fs && fs[place.path + [segs[k]]].Link?
    && Follow(fs, [], segs[..k + 1], hops).Nowhere?
  }

  ghost predicate MeetsDanglingLink(fs: FileSystem, segs: seq<string>, hops: nat) {
    exists k: nat :: k < |segs| && DanglesAt(fs, segs, hops, k)
  }

  lemma RealPathOf(fs: FileSystem, hops: nat, segs: seq<string>, k: nat)
    requires Plain(segs) && k <= |segs|
    ensures RealPath(fs, hops)(Render(segs[..k]))
            == match Follow(fs, [], segs[..k], hops)
               case There(q, _) => Resolved(Render(q))
               case Nowhere(_) => Missing
               case Unusable => LookupError
  {
    PlainResolvesToItself([], segs[..k]);
  }

  lemma FollowFrom(fs: FileSystem, hops: nat, segs: seq<string>, k: nat)
    requires k <= |segs|
    ensures Follow(fs, [], segs, hops)
            == match Follow(fs, [], segs[..k], hops)
               case There(p, left) => Follow(fs, p, segs[k..], left)
               case Nowhere(p) => Nowhere(p + segs[k..])
               case Unusable => Unusable
  {
    assert segs == segs[..k] + segs[k..];
    FollowConcat(fs, [], segs[..k], segs[k..], hops);
  }

  /** What is nowhere after `k` segments is nowhere after more. */
  lemma NowhereStays(fs: FileSystem, hops: nat, segs: seq<string>, k: nat, n: nat)
    requires k <= n <= |segs| && Follow(fs, [], segs[..k], hops).Nowhere?
    ensures Follow(fs, [], segs[..n], hops).Nowhere?
  {
    FollowFrom(fs, hops, segs[..n], k);
    assert segs[..n][..k] == segs[..k];
  }

  lemma {:induction false} Deepest(fs: FileSystem, hops: nat, segs: seq<string>, n: nat) returns (k: nat)
    requires n <= |segs|
    ensures k <= n && !Follow(fs, [], segs[..k], hops).Nowhere?
    ensures forall j :: k < j <= n ==> Follow(fs, [], segs[..j], hops).Nowhere?
  {
    k := n;
    if Follow(fs, [], segs[..n], hops).Nowhere? {
      assert n > 0;
      k := Deepest(fs, hops, segs, n - 1);
    }
  }

  /** The canonical form is the real path of the deepest segments that lead somewhere, and the others as they are. */
  lemma CanonicalFrom(fs: FileSystem, hops: nat, segs: seq<string>, k: nat)
    requires IsFileSystem(fs) && Plain(segs) && k <= |segs| && !Follow(fs, [], segs[..k], hops).Nowhere?
    requires forall j :: k < j <= |segs| ==> Follow(fs, [], segs[..j], hops).Nowhere?
    ensures var c, place := Climb(RealPath(fs, hops), segs, |segs|), Follow(fs, [], segs[..k], hops);
            if place.Unusable? then c == None
            else Segments(place.path) && c == Some(Render(place.path + segs[k..]))
  {
    DeepestIsKnown(fs, hops, segs, k);
    RealPathOf(fs, hops, segs, k);
    FollowedIs(fs, [], segs[..k], hops);
    hide Climb;
    hide RealPath;
    hide Render;
    hide Follow;
    hide DeepestKnown;
    var place := Follow(fs, [], segs[..k], hops);
    if place.There? {
      CanonicalMeaning(RealPath(fs, hops), segs, k, Render(place.path));
      JoinRenders(place.path, segs[k..]);
    } else {
      CanonicalMeaning(RealPath(fs, hops), segs, k, "");
    }
  }

  lemma DeepestIsKnown(fs: FileSystem, hops: nat, segs: seq<string>, k: nat)
    requires Plain(segs) && k <= |segs| && !Follow(fs, [], segs[..k], hops).Nowhere?
    requires forall j :: k < j <= |segs| ==> Follow(fs, [], segs[..j], hops).Nowhere?
    ensures DeepestKnown(RealPath(fs, hops), segs, k)
  {
    hide RealPath;
    hide Follow;
    hide Render;
    hide Plain;
    forall j | k <= j <= |segs|
      ensures RealPath(fs, hops)(Render(segs[..j])).Missing? <==> Follow(fs, [], segs[..j], hops).Nowhere?
    {
      RealPathOf(fs, hops, segs, j);
    }
  }

  /**
   The canonical form exists exactly if the path leads somewhere, and it is the place the path leads to, taken
   or free, if and only if following the path meets no dangling link.
   */
  lemma CanonicalIsWhereItLeads(fs: FileSystem, hops: nat, segs: seq<string>)
    requires IsFileSystem(fs) && Plain(segs)
    ensures var c, to := Climb(RealPath(fs, hops), segs, |segs|), Leads(fs, segs, hops);
            && (c.None? <==> to.None?)
            && (c.Some? ==> (c.value == Render(to.value) <==> !MeetsDanglingLink(fs, segs, hops)))
  {
    assert segs[..|segs|] == segs;
    var k := Deepest(fs, hops, segs, |segs|);
    CanonicalFrom(fs, hops, segs, k);
    FollowFrom(fs, hops, segs, k);
    DanglesOnlyAt(fs, hops, segs, k);
    var place := Follow(fs, [], segs[..k], hops);
    if place.There? && k < |segs| {
      CanonicalAtBreak(fs, hops, segs, k);
    } else if place.There? {
      assert place.path + segs[k..] == place.path;
    }
    hide Follow;
    hide DanglesAt;
    hide MeetsDanglingLink;
    hide RealPath;
    hide Climb;
    hide Render;
  }

  lemma CanonicalAtBreak(fs: FileSystem, hops: nat, segs: seq<string>, k: nat)
    requires IsFileSystem(fs) && Plain(segs) && k < |segs|
    requires Follow(fs, [], segs[..k], hops).There? && Follow(fs, [], segs[..k + 1], hops).Nowhere?
    ensures var place, to := Follow(fs, [], segs[..k], hops), Follow(fs, [], segs, hops);
            to.Nowhere? && (Render(place.path + segs[k..]) == Render(to.path) <==> !DanglesAt(fs, segs, hops, k))
  {
    var place, free := Follow(fs, [], segs[..k], hops), Follow(fs, [], segs[..k + 1], hops);
    LastStep(fs, hops, segs, k);
    FollowFrom(fs, hops, segs, k + 1);
    FollowedIs(fs, [], segs, hops);
    FollowedIs(fs, [], segs[..k], hops);
    SegmentsConcat(place.path, segs[k..]);
    hide Follow;
    hide DanglesAt;
    hide IsFileSystem;
    var next := place.path + [segs[k]];
    assert next[..|next| - 1] == place.path;
    SameRest(next, free.path, segs[k + 1..], segs[k..]);
    DifferentPaths(place.path + segs[k..], free.path + segs[k + 1..]);
  }

  lemma DifferentPaths(a: seq<string>, b: seq<string>)
    requires Segments(a) && Segments(b)
    ensures Render(a) == Render(b) <==> a == b
  {
    if Render(a) == Render(b) {
      RenderInjective(a, b);
    }
  }

  lemma SameRest(a: seq<string>, b: seq<string>, rest: seq<string>, from: seq<string>)
    requires a != [] && from == [a[|a| - 1]] + rest
    ensures a[..|a| - 1] + from == b + rest <==> a == b
  {
    assert a[..|a| - 1] + from == a + rest;
    if a + rest == b + rest {
      assert |a| == |b| && a == (a + rest)[..|a|] == (b + rest)[..|b|];
    }
  }

  /** Only the first segment that leads nowhere can be a dangling link. */
  lemma DanglesOnlyAt(fs: FileSystem, hops: nat, segs: seq<string>, k: nat)
    requires k <= |segs| && !Follow(fs, [], segs[..k], hops).Nowhere?
    requires forall j :: k < j <= |segs| ==> Follow(fs, [], segs[..j], hops).Nowhere?
    ensures MeetsDanglingLink(fs, segs, hops) <==> k < |segs| && DanglesAt(fs, segs, hops, k)
  {
    forall j: nat | j < |segs| && DanglesAt(fs, segs, hops, j) ensures j == k {
      if j < k {
        NowhereStays(fs, hops, segs, j + 1, k);
      }
    }
  }

  /** That segment is either free, or it is a link and the place it leads to is another one. */
  lemma LastStep(fs: FileSystem, hops: nat, segs: seq<string>, k: nat)
    requires IsFileSystem(fs) && Plain(segs) && k < |segs|
    requires Follow(fs, [], segs[..k], hops).There? && Follow(fs, [], segs[..k + 1], hops).Nowhere?
    ensures Follow(fs, [], segs[..k + 1], hops).path == Follow(fs, [], segs[..k], hops).path + [segs[k]]
            <==> !DanglesAt(fs, segs, hops, k)
  {
    var place, next := Follow(fs, [], segs[..k], hops), Follow(fs, [], segs[..k], hops).path + [segs[k]];
    assert segs[..k + 1][..k] == segs[..k] && segs[..k + 1][k..] == [segs[k]];
    FollowFrom(fs, hops, segs[..k + 1], k);
    assert segs[k] in segs && [segs[k]][1..] == [];
    FollowedIs(fs, [], segs[..k + 1], hops);
    if next in fs {
      forall i | 0 < i <= |next| ensures next[..i] in fs {
        TakenIsNotFree(fs, next, i);
      }
    } else {
      assert next + [] == next;
    }
  }

  /** So where no dangling link is met, the workspace test compares the places the paths lead to. */
  lemma InsideIsWhereItLeads(fs: FileSystem, hops: nat, cwd: seq<string>, target: string, root: string)
    requires IsFileSystem(fs) && Plain(cwd)
    requires !MeetsDanglingLink(fs, Resolve(cwd, target), hops) && !MeetsDanglingLink(fs, Resolve(cwd, root), hops)
    ensures var t, r := Leads(fs, Resolve(cwd, target), hops), Leads(fs, Resolve(cwd, root), hops);
            Inside(Canonical(RealPath(fs, hops), cwd, target), Canonical(RealPath(fs, hops), cwd, root))
            <==> t.Some? && r.Some? && r.value <= t.value && (r.value != [] || t.value == [])
  {
    ResolvedIsPlain(cwd, target);
    ResolvedIsPlain(cwd, root);
    CanonicalIsWhereItLeads(fs, hops, Resolve(cwd, target));
    CanonicalIsWhereItLeads(fs, hops, Resolve(cwd, root));
    FollowedIs(fs, [], Resolve(cwd, target), hops);
    FollowedIs(fs, [], Resolve(cwd, root), hops);
    var t, r := Leads(fs, Resolve(cwd, target), hops), Leads(fs, Resolve(cwd, root), hops);
    if t.Some? && r.Some? {
      InsideMeansSegments(t.value, r.value);
    }
  }

  const LINKED: FileSystem :=
    map[["work"] := Directory, ["else"] := Directory, ["work", "out"] := Link(true, ["else", "file"])]

  lemma LinkedIsFileSystem()
    ensures IsFileSystem(LINKED)
  {
    assert ["work"][..0] == [] == ["else"][..0] && ["work", "out"][..1] == ["work"];
    assert forall p :: p in LINKED ==> p == ["work"] || p == ["else"] || p == ["work", "out"];
    assert Segments(["work"]) && Segments(["else"]) && Segments(["work", "out"]) && Segments(["else", "file"]);
    hide Segments;
  }

  lemma FollowLinked()
    ensures Follow(LINKED, [], ["work"], 40) == There(["work"], 40)
    ensures Follow(LINKED, [], ["work", "out"], 40) == Nowhere(["else", "file"])
  {
    FollowStep(LINKED, [], ["work"], 40);
    FollowStep(LINKED, [], ["work", "out"], 40);
    assert ["work"][1..] == [] && ["work", "out"][1..] == ["out"] && [] + ["work"] == ["work"];
    FollowStep(LINKED, ["work"], ["out"], 40);
    assert ["work"] + ["out"] == ["work", "out"] && ["else", "file"] + ["out"][1..] == ["else", "file"];
    FollowStep(LINKED, [], ["else", "file"], 39);
    assert ["else", "file"][1..] == ["file"] && [] + ["else"] == ["else"];
    FollowStep(LINKED, ["else"], ["file"], 39);
    assert ["else"] + ["file"] + ["file"][1..] == ["else", "file"];
    hide Follow;
  }

  lemma FollowStep(fs: FileSystem, at: seq<string>, rest: seq<string>, hops: nat)
    requires rest != [] && rest[0] != "." && rest[0] != ".." && IsDirectory(fs, at) && hops > 0
    ensures var next := at + [rest[0]];
            Follow(fs, at, rest, hops)
            == if next !in fs then Nowhere(next + rest[1..])
               else if !fs[next].Link? then if rest[1..] == [] then There(next, hops) else Follow(fs, next, rest[1..], hops)
               else Follow(fs, if fs[next].absolute then [] else at, fs[next].target + rest[1..], hops - 1)
  {
  }

  lemma LinkedNames()
    ensures Plain(["work"]) && Plain(["work", "out"])
  {
  }

  /** Where all but the last segment lead to themselves and the last one to a free place, nothing moves. */
  lemma CanonicalStays(fs: FileSystem, hops: nat, segs: seq<string>, k: nat)
    requires IsFileSystem(fs) && Plain(segs) && k <= |segs| <= k + 1
    requires Follow(fs, [], segs[..k], hops).There? && Follow(fs, [], segs[..k], hops).path == segs[..k]
    requires k < |segs| ==> Follow(fs, [], segs, hops).Nowhere?
    ensures Climb(RealPath(fs, hops), segs, |segs|) == Some(Render(segs))
  {
    hide Follow;
    hide Climb;
    hide Plain;
    hide IsFileSystem;
    hide Render;
    hide RealPath;
    assert segs[..|segs|] == segs && segs[..k] + segs[k..] == segs;
    CanonicalFrom(fs, hops, segs, k);
  }

  /** The condition is needed: a dangling link inside the workspace that leads out of it counts as inside. */
  lemma DanglingLinkCountsAsInside()
    ensures IsFileSystem(LINKED)
    ensures Inside(Climb(RealPath(LINKED, 40), ["work", "out"], 2), Climb(RealPath(LINKED, 40), ["work"], 1))
    ensures Leads(LINKED, ["work", "out"], 40) == Some(["else", "file"]) && Leads(LINKED, ["work"], 40) == Some(["work"])
  {
    LinkedIsFileSystem();
    FollowLinked();
    LinkedNames();
    hide Follow;
    hide Climb;
    hide IsFileSystem;
    hide RealPath;
    var target, root := ["work", "out"], ["work"];
    assert root[..1] == root == target[..1];
    CanonicalStays(LINKED, 40, root, 1);
    CanonicalStays(LINKED, 40, target, 1);
    InsideMeansSegments(target, root);
    hide Render;
    hide IsNormalizedPathInsideRoot;
  }
}
