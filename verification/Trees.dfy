/** Directory trees, staged writes, snapshot diffs and the promotion of a diff. */
module Trees {
  import opened Wrappers
  import opened Domain
  import opened Ordering

  // ----- trees --------------------------------------------------------------------------------

  /** The proper ancestors of a path, below the root. */
  function Parents(path: string): set<string> {
    set i | 0 <= i < |path| && path[i] == '/' :: path[..i]
  }

  /** Every ancestor of an entry is a directory. */
  ghost predicate WellFormed(tree: Tree) {
    forall p, q | p in tree && q in Parents(p) :: q in tree && tree[q] == Directory
  }

  lemma ParentOfParent(p: string, q: string, r: string)
    requires q in Parents(p) && r in Parents(q)
    ensures r in Parents(p)
  {
    var i :| 0 <= i < |p| && p[i] == '/' && p[..i] == q;
    var j :| 0 <= j < |q| && q[j] == '/' && q[..j] == r;
    assert p[..j] == r && p[j] == '/';
  }

  lemma ParentIsShorter(p: string, q: string)
    requires q in Parents(p)
    ensures |q| < |p|
  {}

  /** `mkdir(parents=True, exist_ok=True)` on the parent of `path`: refused by an ancestor that is
      a file. */
  function MakeParents(tree: Tree, path: string): (made: Option<Tree>)
    ensures made.None? <==> exists q :: q in Parents(path) && q in tree && tree[q].File?
    ensures made.Some? ==>
              && made.value.Keys == tree.Keys + Parents(path)
              && (forall q | q in Parents(path) :: made.value[q] == Directory)
              && (forall p | p in tree :: made.value[p] == tree[p])
  {
    if exists q | q in Parents(path) :: q in tree && tree[q].File? then None
    else Some(tree + map q | q in Parents(path) :: Directory)
  }

  /** `os.replace` of a file onto `path`: refused by a directory. */
  function PutFile(tree: Tree, path: string, content: string): Option<Tree> {
    if path in tree && tree[path] == Directory then None
    else Some(tree[path := File(content)])
  }

  /** One staged or promoted file. */
  function WriteFile(tree: Tree, path: string, content: string): Option<Tree> {
    var made := MakeParents(tree, path);
    if made.None? then None else PutFile(made.value, path, content)
  }

  // ----- portable keys and snapshots ----------------------------------------------------------

  /** Case folding maps a character to text, and only '/' to a text with a '/'. */
  ghost predicate KeepsParts(f: char -> string) {
    f('/') == "/" && forall c :: c != '/' ==> '/' !in f(c)
  }

  /** The case folding of single characters: a table of Unicode. */
  type Folding = f: char -> string | KeepsParts(f) witness c => [c]

  /** `portable_path_key`: every part of the path folded, the parts joined as they were. */
  function PortableKey(path: string, fold: Folding): string {
    if path == "" then "" else fold(path[0]) + PortableKey(path[1..], fold)
  }

  /** Two entries that a case-insensitive filesystem takes for one. */
  predicate Aliased(tree: Tree, fold: Folding) {
    exists p, q | p in tree && q in tree :: p != q && PortableKey(p, fold) == PortableKey(q, fold)
  }

  /** `snapshot_tree`, as the digest of the tree: refused for aliased entries and for a root that
      is missing. */
  function Snapshot(root: Option<Tree>, fold: Folding): Result<TargetVersion> {
    if root.None? then Failure(Unspecified)
    else if Aliased(root.value, fold) then Failure(ValidationError)
    else Success(TreeDigest(root.value))
  }

  method SnapshotTree(root: Option<Tree>, fold: Folding) returns (r: Result<TargetVersion>)
    ensures r == Snapshot(root, fold)
  {
    if root.None? {
      return Failure(Unspecified);
    }
    hide PortableKey, SortedKeys, Increasing, Less, Keyed, Aliased;
    var tree := root.value;
    var entries := SortedKeys(tree.Keys);
    var portable: map<string, string> := map[];
    NothingKeyed(fold);
    assert entries[..0] == [] && entries[..|entries|] == entries;
    for n := 0 to |entries|
      invariant Keyed(entries[..n], portable, fold)
    {
      var path := entries[n];
      var key := PortableKey(path, fold);
      KeyedOneMore(tree, entries, n, portable, fold);
      if key in portable && portable[key] != path {
        return Failure(ValidationError);
      }
      portable := portable[key := path];
    }
    KeyedIsDistinct(tree, entries, portable, fold);
    return Success(TreeDigest(tree));
  }

  /** The paths seen so far, each under its own portable key. */
  predicate Keyed(seen: seq<string>, portable: map<string, string>, fold: Folding) {
    && (forall k | k in portable :: portable[k] in seen && PortableKey(portable[k], fold) == k)
    && (forall p | p in seen :: PortableKey(p, fold) in portable && portable[PortableKey(p, fold)] == p)
  }

  lemma NothingKeyed(fold: Folding)
    ensures Keyed([], map[], fold)
  {}

  lemma KeyedOneMore(tree: Tree, entries: seq<string>, n: nat, portable: map<string, string>, fold: Folding)
    requires n < |entries| && Keyed(entries[..n], portable, fold)
    requires forall p :: p in entries <==> p in tree.Keys
    ensures var path := entries[n];
            var key := PortableKey(path, fold);
            if key in portable && portable[key] != path then Aliased(tree, fold)
            else Keyed(entries[..n + 1], portable[key := path], fold)
  {
    hide PortableKey;
    assert entries[n] in entries && entries[..n + 1] == entries[..n] + [entries[n]];
  }

  lemma KeyedIsDistinct(tree: Tree, entries: seq<string>, portable: map<string, string>, fold: Folding)
    requires Keyed(entries, portable, fold) && forall p :: p in entries <==> p in tree.Keys
    ensures !Aliased(tree, fold)
  {
    hide PortableKey;
  }

  /** What is folded to a text with a '/' at some place has a '/' there itself. */
  lemma {:induction false} FoldedParent(path: string, n: nat, fold: Folding) returns (k: nat)
    requires n < |PortableKey(path, fold)| && PortableKey(path, fold)[n] == '/'
    ensures k < |path| && path[k] == '/' && PortableKey(path[..k], fold) == PortableKey(path, fold)[..n]
  {
    var head := fold(path[0]);
    if n < |head| {
      assert head[n] == '/';
      k := 0;
    } else {
      var rest := FoldedParent(path[1..], n - |head|, fold);
      k := rest + 1;
      assert path[..k][1..] == path[1..][..rest];
    }
  }

  // ----- staging ------------------------------------------------------------------------------

  /** Requested files in the order in which they are written. */
  type Files = seq<(string, string)>

  predicate DistinctPaths(files: Files) {
    forall i, j | 0 <= i < j < |files| :: files[i].0 != files[j].0
  }

  /** All files written one after another; none if some write is refused. */
  function Executed(tree: Tree, files: Files): Option<Tree> {
    if files == [] then Some(tree)
    else
      var before := Executed(tree, files[..|files| - 1]);
      if before.None? then None
      else WriteFile(before.value, files[|files| - 1].0, files[|files| - 1].1)
  }

  function Paths(files: Files): set<string> {
    set i | 0 <= i < |files| :: files[i].0
  }

  function NewParents(files: Files): set<string> {
    set i, q | 0 <= i < |files| && q in Parents(files[i].0) :: q
  }

  /** A request clashes with itself (a file is also a parent) or with the tree (a file is a
      directory there, or needs a parent that is a file there). */
  ghost predicate Clash(tree: Tree, files: Files) {
    || (exists p :: p in Paths(files) && p in NewParents(files))
    || (exists p :: p in Paths(files) && p in tree && tree[p] == Directory)
    || (exists q :: q in NewParents(files) && q in tree && tree[q].File?)
  }

  /** What a successful execution leaves. */
  ghost predicate Overlays(tree: Tree, files: Files, staged: Tree) {
    && staged.Keys == tree.Keys + Paths(files) + NewParents(files)
    && (forall i | 0 <= i < |files| :: files[i].0 in staged && staged[files[i].0] == File(files[i].1))
    && (forall q | q in NewParents(files) :: staged[q] == Directory)
    && (forall p | p in tree && p !in Paths(files) :: staged[p] == tree[p])
  }

  lemma PathsSnoc(files: Files)
    requires files != []
    ensures var n := |files| - 1;
            && Paths(files) == Paths(files[..n]) + {files[n].0}
            && NewParents(files) == NewParents(files[..n]) + Parents(files[n].0)
  {
    var n := |files| - 1;
    var front := files[..n];
    forall p ensures p in Paths(files) <==> p in Paths(front) + {files[n].0} {
      if p in Paths(files) {
        var i :| 0 <= i < |files| && files[i].0 == p;
        if i < n { assert front[i] == files[i]; }
      }
      if p in Paths(front) {
        var i :| 0 <= i < n && front[i].0 == p;
        assert files[i] == front[i];
      }
      assert files[n].0 in Paths(files);
    }
    forall q ensures q in NewParents(files) <==> q in NewParents(front) + Parents(files[n].0) {
      if q in NewParents(files) {
        var i :| 0 <= i < |files| && q in Parents(files[i].0);
        if i < n { assert front[i] == files[i]; }
      }
      if q in NewParents(front) {
        var i :| 0 <= i < n && q in Parents(front[i].0);
        assert files[i] == front[i];
      }
      if q in Parents(files[n].0) {
        assert q in NewParents(files);
      }
    }
  }

  /** Writing one more file onto an overlay: refused exactly by a clash of the last file. */
  lemma WriteOnOverlay(tree: Tree, files: Files, staged: Tree)
    requires files != [] && DistinctPaths(files)
    requires Overlays(tree, files[..|files| - 1], staged)
    requires !Clash(tree, files[..|files| - 1])
    ensures var last := files[|files| - 1];
            var w := WriteFile(staged, last.0, last.1);
            && (w.None? <==> Clash(tree, files))
            && (w.Some? ==> Overlays(tree, files, w.value))
  {
    var n := |files| - 1;
    var front, last := files[..n], files[n];
    PathsSnoc(files);
    var made := MakeParents(staged, last.0);
    forall i | 0 <= i < n ensures front[i] == files[i] && files[i].0 in Paths(front) && files[i].0 != last.0 {}
    assert last.0 !in Paths(front);
    if last.0 in Parents(last.0) {
      ParentIsShorter(last.0, last.0);
    }
    if made.None? {
      var q :| q in Parents(last.0) && q in staged && staged[q].File?;
      if q in Paths(front) {
        assert q in Paths(files) && q in NewParents(files);
      } else {
        assert q in NewParents(files) && q in tree && tree[q].File?;
      }
    } else if last.0 in made.value && made.value[last.0] == Directory {
      if last.0 in NewParents(front) {
        assert last.0 in Paths(files) && last.0 in NewParents(files);
      } else {
        assert last.0 in Paths(files) && last.0 in tree && tree[last.0] == Directory;
      }
    } else {
      NoClashWhenWritten(tree, files, staged);
    }
  }

  lemma NoClashWhenWritten(tree: Tree, files: Files, staged: Tree)
    requires files != [] && DistinctPaths(files)
    requires Overlays(tree, files[..|files| - 1], staged)
    requires !Clash(tree, files[..|files| - 1])
    requires WriteFile(staged, files[|files| - 1].0, files[|files| - 1].1).Some?
    ensures !Clash(tree, files)
    ensures Overlays(tree, files, WriteFile(staged, files[|files| - 1].0, files[|files| - 1].1).value)
  {
    var n := |files| - 1;
    var front, last := files[..n], files[n];
    PathsSnoc(files);
    LastFileIsFree(tree, files, staged);
    OverlayGrows(tree, files, staged);
    hide *;
    NoClashOneMore(tree, front, files, last.0, staged);
  }

  lemma NoClashOneMore(tree: Tree, front: Files, files: Files, last: string, staged: Tree)
    requires Overlays(tree, front, staged) && !Clash(tree, front)
    requires last !in NewParents(front) && last !in Parents(last)
    requires forall p | p in Paths(front) :: p !in Parents(last)
    requires forall q | q in Parents(last) && q in staged :: staged[q] == Directory
    requires last in tree ==> tree[last].File?
    requires Paths(files) == Paths(front) + {last}
    requires NewParents(files) == NewParents(front) + Parents(last)
    ensures !Clash(tree, files)
  {
    hide Paths, NewParents, Parents;
    forall q | q in NewParents(files) && q in tree ensures tree[q] == Directory {
      if q !in NewParents(front) {
        assert staged[q] == tree[q];
      }
    }
  }

  /** A last file that can be written is no parent, and none of its parents is a file. */
  lemma LastFileIsFree(tree: Tree, files: Files, staged: Tree)
    requires files != [] && DistinctPaths(files)
    requires Overlays(tree, files[..|files| - 1], staged)
    requires WriteFile(staged, files[|files| - 1].0, files[|files| - 1].1).Some?
    ensures var last := files[|files| - 1].0;
            var front := files[..|files| - 1];
            && last !in Paths(front) && last !in NewParents(front) && last !in Parents(last)
            && (forall p | p in Paths(front) :: p !in Parents(last))
            && (forall q | q in Parents(last) && q in staged :: staged[q] == Directory)
            && (last in tree ==> tree[last].File?)
  {
    var n := |files| - 1;
    var front, last := files[..n], files[n].0;
    forall i | 0 <= i < n ensures front[i] == files[i] && front[i].0 != last {}
    if last in Parents(last) {
      ParentIsShorter(last, last);
    }
    forall p | p in Paths(front) ensures p !in Parents(last) {
      var i :| 0 <= i < n && front[i].0 == p;
      assert staged[p].File?;
    }
  }

  lemma OverlayGrows(tree: Tree, files: Files, staged: Tree)
    requires files != [] && DistinctPaths(files)
    requires Overlays(tree, files[..|files| - 1], staged)
    requires WriteFile(staged, files[|files| - 1].0, files[|files| - 1].1).Some?
    ensures Overlays(tree, files, WriteFile(staged, files[|files| - 1].0, files[|files| - 1].1).value)
  {
    var n := |files| - 1;
    var last := files[n];
    PathsSnoc(files);
    LastFileIsFree(tree, files, staged);
    var made := MakeParents(staged, last.0).value;
    assert WriteFile(staged, last.0, last.1).value == made[last.0 := File(last.1)];
    assert files == files[..n] + [last];
    hide *;
    OverlayOneMore(tree, files[..n], last, staged, made);
  }

  lemma OverlayOneMore(tree: Tree, front: Files, last: (string, string), staged: Tree, made: Tree)
    requires Overlays(tree, front, staged)
    requires last.0 !in Paths(front) && last.0 !in NewParents(front) && last.0 !in Parents(last.0)
    requires forall p | p in Paths(front) :: p !in Parents(last.0)
    requires forall q | q in Parents(last.0) && q in staged :: staged[q] == Directory
    requires made.Keys == staged.Keys + Parents(last.0)
    requires forall q | q in Parents(last.0) :: made[q] == Directory
    requires forall p | p in staged :: made[p] == staged[p]
    requires Paths(front + [last]) == Paths(front) + {last.0}
    requires NewParents(front + [last]) == NewParents(front) + Parents(last.0)
    ensures Overlays(tree, front + [last], made[last.0 := File(last.1)])
  {
    hide Paths, NewParents, Parents;
    var files, written := front + [last], made[last.0 := File(last.1)];
    forall i | 0 <= i < |files| ensures files[i].0 in written && written[files[i].0] == File(files[i].1) {
      if i < |front| {
        assert front[i] == files[i];
        assert front[i].0 in Paths(front) by { InPaths(front, i); }
      }
    }
  }

  lemma InPaths(files: Files, i: nat)
    requires i < |files|
    ensures files[i].0 in Paths(files)
  {}

  lemma {:induction false} ExecutionDecided(tree: Tree, files: Files)
    requires DistinctPaths(files)
    ensures Executed(tree, files).None? <==> Clash(tree, files)
    ensures Executed(tree, files).Some? ==> Overlays(tree, files, Executed(tree, files).value)
  {
    if files != [] {
      var front := files[..|files| - 1];
      ExecutionDecided(tree, front);
      PathsSnoc(files);
      if Clash(tree, front) {
        ClashGrows(tree, files);
      } else {
        WriteOnOverlay(tree, files, Executed(tree, front).value);
      }
    } else {
      assert Paths(files) == {} && NewParents(files) == {};
    }
  }

  lemma ClashGrows(tree: Tree, files: Files)
    requires files != [] && Clash(tree, files[..|files| - 1])
    ensures Clash(tree, files)
  {
    PathsSnoc(files);
    var front := files[..|files| - 1];
    if p :| p in Paths(front) && p in NewParents(front) {
      assert p in Paths(files) && p in NewParents(files);
    } else if p :| p in Paths(front) && p in tree && tree[p] == Directory {
      assert p in Paths(files);
    } else {
      var q :| q in NewParents(front) && q in tree && tree[q].File?;
      assert q in NewParents(files);
    }
  }

  lemma OverlayIsWellFormed(tree: Tree, files: Files, staged: Tree)
    requires WellFormed(tree) && Overlays(tree, files, staged) && !Clash(tree, files)
    ensures WellFormed(staged)
  {
    forall p, q | p in staged && q in Parents(p) ensures q in staged && staged[q] == Directory {
      if p in tree {
        assert q in tree && tree[q] == Directory;
      } else if p in Paths(files) {
        var i :| 0 <= i < |files| && files[i].0 == p;
        assert q in NewParents(files);
      } else {
        var i :| 0 <= i < |files| && p in Parents(files[i].0);
        ParentOfParent(files[i].0, p, q);
        assert q in NewParents(files);
      }
    }
  }

  // ----- the neighbour scan ---------------------------------------------------------------------

  /** Some requested file is also the parent of another. */
  ghost predicate ParentConflict(keys: seq<string>) {
    exists a, b :: a in keys && b in keys && StartsWith(b, a + "/")
  }

  ghost predicate NeighbourConflict(keys: seq<string>) {
    exists i :: 0 <= i && i + 1 < |keys| && StartsWith(keys[i + 1], keys[i] + "/")
  }

  /** A key that continues `a` with a character below '/'. */
  predicate Shadows(c: string, a: string) {
    StartsWith(c, a) && |c| > |a| && c[|a|] < '/'
  }

  /** A conflict whose parent no key shadows. */
  ghost predicate OpenConflict(keys: seq<string>) {
    exists a, b :: a in keys && b in keys && StartsWith(b, a + "/") && forall c | c in keys :: !Shadows(c, a)
  }

  method ScanNeighbours(keys: seq<string>) returns (conflict: bool)
    requires Increasing(keys)
    ensures conflict <==> NeighbourConflict(keys)
    ensures conflict <==> OpenConflict(keys)
  {
    NeighbourScanDecides(keys);
    var index := 0;
    while index + 1 < |keys|
      invariant 0 <= index
      invariant forall i | 0 <= i < index && i + 1 < |keys| :: !StartsWith(keys[i + 1], keys[i] + "/")
    {
      if StartsWith(keys[index + 1], keys[index] + "/") {
        return true;
      }
      index := index + 1;
    }
    return false;
  }

  lemma {:induction false} DivergenceIsLess(a: string, c: string, b: string)
    requires StartsWith(c, a) && StartsWith(b, a) && |c| > |a| && |b| > |a| && c[|a|] < b[|a|]
    ensures Less(c, b)
  {
    if a != "" {
      assert c[1..][..|a| - 1] == a[1..] && b[1..][..|a| - 1] == a[1..];
      assert c[0] == c[..|a|][0] && b[0] == b[..|a|][0];
      DivergenceIsLess(a[1..], c[1..], b[1..]);
    }
  }

  lemma SlashContinues(b: string, a: string)
    requires StartsWith(b, a + "/")
    ensures StartsWith(b, a) && |b| > |a| && b[|a|] == '/' && a != b
  {
    assert b[..|a|] == b[..|a| + 1][..|a|];
    assert b[|a|] == b[..|a| + 1][|a|];
  }

  lemma ContinuesWithSlash(b: string, a: string)
    requires StartsWith(b, a) && |b| > |a| && b[|a|] == '/'
    ensures StartsWith(b, a + "/")
  {
    assert b[..|a| + 1] == b[..|a|] + [b[|a|]];
  }

  /** The exact reach of the scan: it reports a conflict if and only if some parent of a requested
      file is itself requested and no requested key continues that parent with a character below
      '/'. */
  lemma NeighbourScanDecides(keys: seq<string>)
    requires Increasing(keys)
    ensures NeighbourConflict(keys) <==> OpenConflict(keys)
  {
    if NeighbourConflict(keys) {
      var i :| 0 <= i && i + 1 < |keys| && StartsWith(keys[i + 1], keys[i] + "/");
      NeighbourIsOpen(keys, i);
    }
    if OpenConflict(keys) {
      var a, b :| a in keys && b in keys && StartsWith(b, a + "/") && forall c | c in keys :: !Shadows(c, a);
      OpenIsNeighbour(keys, a, b);
    }
  }

  lemma NeighbourIsOpen(keys: seq<string>, i: nat)
    requires Increasing(keys) && i + 1 < |keys| && StartsWith(keys[i + 1], keys[i] + "/")
    ensures OpenConflict(keys)
  {
    var a, b := keys[i], keys[i + 1];
    SlashContinues(b, a);
    forall c | c in keys ensures !Shadows(c, a) {
      if Shadows(c, a) {
        var k :| 0 <= k < |keys| && keys[k] == c;
        PrefixIsLess(a, c);
        DivergenceIsLess(a, c, b);
        LessIsStrict(a, c);
        LessIsStrict(c, b);
      }
    }
    assert a in keys && b in keys;
  }

  lemma OpenIsNeighbour(keys: seq<string>, a: string, b: string)
    requires Increasing(keys) && a in keys && b in keys && StartsWith(b, a + "/")
    requires forall c | c in keys :: !Shadows(c, a)
    ensures NeighbourConflict(keys)
  {
    SlashContinues(b, a);
    PrefixIsLess(a, b);
    var i: nat :| i < |keys| && keys[i] == a;
    var j: nat :| j < |keys| && keys[j] == b;
    LessIsStrict(a, b);
    assert i < j by {
      if j < i { LessIsStrict(b, a); }
    }
    var c := keys[i + 1];
    assert c in keys;
    BetweenContinues(a, c, b);
    ContinuesWithSlash(c, a);
  }

  /** So the scan is complete where no key holds a character below '/'. */
  lemma ScanIsCompleteOnPlainKeys(keys: seq<string>)
    requires Increasing(keys)
    requires forall k | k in keys :: forall i | 0 <= i < |k| :: k[i] >= '/'
    ensures NeighbourConflict(keys) <==> ParentConflict(keys)
  {
    NeighbourScanDecides(keys);
  }

  /** A conflict it misses: '.' sorts below '/'. */
  lemma ScanMissesShadowedParent()
    ensures var keys := ["a", "a.txt", "a/c"];
            Increasing(keys) && ParentConflict(keys) && !NeighbourConflict(keys)
  {
    var keys := ["a", "a.txt", "a/c"];
    assert Less("a"[1..], "a.txt"[1..]) && Less("a"[1..], "a/c"[1..]);
    assert ".txt"[0] == '.' && "/c"[0] == '/';
    assert "a.txt"[1..] == ".txt" && "a/c"[1..] == "/c";
    assert "a/c"[..2] == "a/" == "a" + "/";
    assert "a" in keys && "a/c" in keys && StartsWith("a/c", "a" + "/");
    assert "a.txt"[..2] == "a.";
    assert |"a.txt" + "/"| == 6;
  }

  /** What the scan misses, staging catches: a request in which the portable key of a file is that
      of a parent of another is refused by the writes, in whatever order they are made, or leaves a
      stage that no snapshot accepts. */
  lemma MissedConflictFailsInStaging(tree: Tree, files: Files, fold: Folding)
    requires DistinctPaths(files)
    requires exists i, j :: 0 <= i < |files| && 0 <= j < |files|
               && StartsWith(PortableKey(files[j].0, fold), PortableKey(files[i].0, fold) + "/")
    ensures Executed(tree, files).None? || Aliased(Executed(tree, files).value, fold)
  {
    var i, j :| 0 <= i < |files| && 0 <= j < |files|
      && StartsWith(PortableKey(files[j].0, fold), PortableKey(files[i].0, fold) + "/");
    var file, other := files[i].0, files[j].0;
    SlashContinues(PortableKey(other, fold), PortableKey(file, fold));
    var k := FoldedParent(other, |PortableKey(file, fold)|, fold);
    var parent := other[..k];
    assert PortableKey(parent, fold) == PortableKey(file, fold);
    assert parent in NewParents(files) by {
      assert parent in Parents(other);
    }
    assert file in Paths(files);
    hide PortableKey;
    ExecutionDecided(tree, files);
  }

  // ----- snapshots and diffs --------------------------------------------------------------------

  datatype FileChange = FileChange(path: string, before: Option<Node>, after: Option<Node>)

  function Entry(tree: Tree, path: string): Option<Node> {
    if path in tree then Some(tree[path]) else None
  }

  function DiffOver(keys: seq<string>, before: Tree, after: Tree): seq<FileChange> {
    if keys == [] then []
    else
      var rest := DiffOver(keys[..|keys| - 1], before, after);
      var path := keys[|keys| - 1];
      if Entry(before, path) == Entry(after, path) then rest
      else rest + [FileChange(path, Entry(before, path), Entry(after, path))]
  }

  /** `diff_snapshots`: the differing paths in sorted order. */
  function Diff(before: Tree, after: Tree): seq<FileChange> {
    DiffOver(SortedKeys(before.Keys + after.Keys), before, after)
  }

  method DiffSnapshots(before: Tree, after: Tree) returns (changes: seq<FileChange>)
    ensures changes == Diff(before, after)
  {
    hide Less, Increasing;
    var keys := SortedKeys(before.Keys + after.Keys);
    changes := [];
    for n := 0 to |keys|
      invariant changes == DiffOver(keys[..n], before, after)
    {
      assert keys[..n + 1][..n] == keys[..n];
      var path := keys[n];
      var previous, current := Entry(before, path), Entry(after, path);
      if previous.None? {
        changes := changes + [FileChange(path, None, current)];
      } else if current.None? {
        changes := changes + [FileChange(path, previous, None)];
      } else if previous != current {
        changes := changes + [FileChange(path, previous, current)];
      }
      assert path in before || path in after by {
        assert path in keys;
      }
    }
    assert keys[..|keys|] == keys;
  }

  lemma {:induction false} DiffOverMembers(keys: seq<string>, before: Tree, after: Tree, c: FileChange)
    ensures c in DiffOver(keys, before, after) <==>
            && c.path in keys && Entry(before, c.path) != Entry(after, c.path)
            && c == FileChange(c.path, Entry(before, c.path), Entry(after, c.path))
  {
    if keys != [] {
      DiffOverMembers(keys[..|keys| - 1], before, after, c);
      assert keys == keys[..|keys| - 1] + [keys[|keys| - 1]];
    }
  }

  /** The diff lists exactly the paths whose entries differ. */
  lemma DiffMembers(before: Tree, after: Tree, path: string)
    ensures FileChange(path, Entry(before, path), Entry(after, path)) in Diff(before, after) <==>
            Entry(before, path) != Entry(after, path)
  {
    DiffOverMembers(SortedKeys(before.Keys + after.Keys), before, after,
                    FileChange(path, Entry(before, path), Entry(after, path)));
  }

  // ----- promotion ------------------------------------------------------------------------------

  /** A change the promotion copies: a created or modified file. */
  predicate Copied(c: FileChange) {
    c.after.Some? && c.after.value.File?
  }

  /** All changes promoted one after another onto a workspace. */
  function Promoted(workspace: Tree, changes: seq<FileChange>): Option<Tree> {
    if changes == [] then Some(workspace)
    else
      var before := Promoted(workspace, changes[..|changes| - 1]);
      var c := changes[|changes| - 1];
      if before.None? || !Copied(c) then before
      else WriteFile(before.value, c.path, c.after.value.content)
  }

  /** A workspace on its way from `base` to `staged`. */
  ghost predicate Between(base: Tree, staged: Tree, workspace: Tree) {
    && base.Keys <= workspace.Keys <= staged.Keys
    && (forall p | p in workspace :: workspace[p] == staged[p] || (p in base && workspace[p] == base[p]))
  }

  ghost predicate Done(staged: Tree, workspace: Tree, c: FileChange) {
    && c.path in staged && c.path in workspace && workspace[c.path] == staged[c.path]
    && (forall q | q in Parents(c.path) :: q in workspace)
  }

  /** `staged` is a well-formed tree that keeps the kind of every entry of `base`. */
  ghost predicate Grows(base: Tree, staged: Tree) {
    && WellFormed(staged) && base.Keys <= staged.Keys
    && (forall p | p in base :: base[p].File? <==> staged[p].File?)
  }

  lemma OneMorePromotion(base: Tree, staged: Tree, workspace: Tree, c: FileChange)
    requires Grows(base, staged) && Between(base, staged, workspace)
    requires c.path in staged && c.after == Some(staged[c.path]) && Copied(c)
    ensures var w := WriteFile(workspace, c.path, c.after.value.content);
            && w.Some? && Between(base, staged, w.value) && Done(staged, w.value, c)
            && (forall d :: Done(staged, workspace, d) ==> Done(staged, w.value, d))
  {
    forall q | q in Parents(c.path) ensures q in staged && staged[q] == Directory {}
    forall q | q in Parents(c.path) && q in workspace ensures workspace[q] == Directory {
      assert q in base ==> !base[q].File?;
    }
    if c.path in Parents(c.path) {
      ParentIsShorter(c.path, c.path);
    }
    assert c.path in workspace ==> workspace[c.path].File?;
    var w := WriteFile(workspace, c.path, c.after.value.content);
    assert w.Some?;
  }

  lemma {:induction false} PromotionProgress(base: Tree, staged: Tree, changes: seq<FileChange>)
    requires Grows(base, staged)
    requires forall c | c in changes && Copied(c) :: c.path in staged && c.after == Some(staged[c.path])
    ensures var w := Promoted(base, changes);
            && w.Some? && Between(base, staged, w.value)
            && (forall c | c in changes && Copied(c) :: Done(staged, w.value, c))
  {
    if changes != [] {
      var front := changes[..|changes| - 1];
      PromotionProgress(base, staged, front);
      var c := changes[|changes| - 1];
      var w := Promoted(base, front).value;
      assert changes == front + [c];
      if Copied(c) {
        OneMorePromotion(base, staged, w, c);
      }
    }
  }

  lemma OverlayGrowsFromTree(base: Tree, files: Files, staged: Tree)
    requires WellFormed(base) && Overlays(base, files, staged) && !Clash(base, files)
    ensures Grows(base, staged)
  {
    OverlayIsWellFormed(base, files, staged);
    forall p | p in base ensures base[p].File? <==> staged[p].File? {
      if p in Paths(files) {
        var i :| 0 <= i < |files| && files[i].0 == p;
        assert staged[p].File?;
      }
    }
  }

  /** Copying only the created and modified files of the diff, with their parent directories,
      rebuilds exactly the staged tree: new directories are the parents of new files. */
  lemma PromotionRebuildsStage(base: Tree, files: Files, staged: Tree)
    requires WellFormed(base) && DistinctPaths(files) && Executed(base, files) == Some(staged)
    ensures Promoted(base, Diff(base, staged)) == Some(staged)
  {
    ExecutionDecided(base, files);
    OverlayGrowsFromTree(base, files, staged);
    hide Clash, WellFormed, Overlays, Executed, Promoted, Grows, Between, Diff;
    var changes := Diff(base, staged);
    DiffChangesAreStaged(base, staged);
    PromotionProgress(base, staged, changes);
    var w := Promoted(base, changes).value;
    forall p | p in staged ensures p in w && w[p] == staged[p] {
      RebuiltEntry(base, files, staged, w, p);
    }
    BetweenKeys(base, staged, w);
    SameTree(w, staged);
  }

  lemma SameTree(a: Tree, b: Tree)
    requires a.Keys <= b.Keys && forall p | p in b :: p in a && a[p] == b[p]
    ensures a == b
  {
    assert a.Keys == b.Keys;
  }

  lemma BetweenKeys(base: Tree, staged: Tree, w: Tree)
    requires Between(base, staged, w)
    ensures w.Keys <= staged.Keys
  {}

  lemma DiffChangesAreStaged(base: Tree, staged: Tree)
    ensures forall c | c in Diff(base, staged) && Copied(c) ::
              c.path in staged && c.after == Some(staged[c.path])
  {
    forall c | c in Diff(base, staged) && Copied(c)
      ensures c.path in staged && c.after == Some(staged[c.path])
    {
      DiffOverMembers(SortedKeys(base.Keys + staged.Keys), base, staged, c);
    }
  }

  lemma RebuiltEntry(base: Tree, files: Files, staged: Tree, w: Tree, p: string)
    requires WellFormed(base) && Overlays(base, files, staged) && !Clash(base, files)
    requires Grows(base, staged) && Between(base, staged, w) && p in staged
    requires forall c | c in Diff(base, staged) && Copied(c) :: Done(staged, w, c)
    ensures p in w && w[p] == staged[p]
  {
    if staged[p].File? {
      hide Clash, WellFormed, Overlays, Diff;
      DiffMembers(base, staged, p);
      if Entry(base, p) != Entry(staged, p) {
        var c := FileChange(p, Entry(base, p), Entry(staged, p));
        assert Copied(c) && Done(staged, w, c);
      }
    } else if p in base {
      hide Clash, WellFormed, Overlays, Diff;
      assert base[p] == Directory;
    } else {
      var f := DirectoryHasNewFile(base, files, staged, p);
      hide Clash, WellFormed, Overlays, Diff, Parents;
      DiffMembers(base, staged, f);
      var d := FileChange(f, Entry(base, f), Entry(staged, f));
      assert Copied(d) && Done(staged, w, d);
    }
  }

  /** Every new directory is there for the sake of a new file. */
  lemma DirectoryHasNewFile(base: Tree, files: Files, staged: Tree, p: string) returns (f: string)
    requires WellFormed(base) && Overlays(base, files, staged) && !Clash(base, files)
    requires p in staged && staged[p] == Directory && p !in base
    ensures f in staged && staged[f].File? && f !in base && p in Parents(f)
  {
    forall i | 0 <= i < |files| ensures files[i].0 != p {
      assert staged[files[i].0].File?;
    }
    assert p in NewParents(files);
    var i :| 0 <= i < |files| && p in Parents(files[i].0);
    f := files[i].0;
    assert f !in base;
  }
}
