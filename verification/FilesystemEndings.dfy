/** How a commit ends when nothing fails, decided by comparing the base tree with the staged tree. */
module FilesystemEndings {
  import opened Domain
  import opened Ordering
  import opened Trees
  import opened Filesystem

  // ----- what a comparison of the trees shows -------------------------------------------------------

  /** A file of the stage that the base tree does not have like that. */
  predicate Changed(base: Tree, staged: Tree, p: string) {
    p in staged && staged[p].File? && Entry(base, p) != Entry(staged, p)
  }

  /** A changed file is a directory of the base tree, or needs a directory that is a file there. */
  ghost predicate KindsClash(base: Tree, staged: Tree) {
    || (exists p :: Changed(base, staged, p) && p in base && base[p] == Directory)
    || (exists p, q :: Changed(base, staged, p) && q in Parents(p) && q in base && base[q].File?)
  }

  /** A file, or a directory with a file somewhere below. */
  ghost predicate HoldsFile(staged: Tree, q: string) {
    q in staged && (staged[q].File? || exists f :: f in staged && staged[f].File? && q in Parents(f))
  }

  /** An entry that the stage deleted shares its portable key with one that it created. */
  ghost predicate AliasesDeleted(base: Tree, staged: Tree, fold: Folding) {
    exists p, q :: p in base && p !in staged && HoldsFile(staged, q) && q !in base
                   && PortableKey(p, fold) == PortableKey(q, fold)
  }

  /** The stage keeps every entry and its kind, and has no new directory without files. */
  ghost predicate OnlyAddsFiles(base: Tree, staged: Tree) {
    && (forall p | p in base :: p in staged && (base[p].File? <==> staged[p].File?))
    && (forall q | q in staged && q !in base :: HoldsFile(staged, q))
  }

  // ----- a promotion writes the changed files -------------------------------------------------------

  function CopiedFiles(changes: seq<FileChange>): Files {
    if changes == [] then []
    else
      var rest, c := CopiedFiles(changes[..|changes| - 1]), changes[|changes| - 1];
      if Copied(c) then rest + [(c.path, c.after.value.content)] else rest
  }

  lemma {:induction false} PromotedIsExecuted(base: Tree, changes: seq<FileChange>)
    ensures Trees.Promoted(base, changes) == Executed(base, CopiedFiles(changes))
  {
    hide WriteFile;
    if changes != [] {
      var front, c := changes[..|changes| - 1], changes[|changes| - 1];
      PromotedIsExecuted(base, front);
      if Copied(c) {
        var files := CopiedFiles(front) + [(c.path, c.after.value.content)];
        assert files[..|files| - 1] == CopiedFiles(front);
      }
    }
  }

  /** These files are the changed ones among the keys. */
  ghost predicate Lists(files: Files, keys: seq<string>, base: Tree, staged: Tree) {
    && DistinctPaths(files)
    && (forall i | 0 <= i < |files| :: files[i].0 in keys && IsChange(files[i], base, staged))
    && (forall p | p in keys && Changed(base, staged, p) :: p in Paths(files))
  }

  predicate IsChange(file: (string, string), base: Tree, staged: Tree) {
    Changed(base, staged, file.0) && staged[file.0] == File(file.1)
  }

  lemma ListsOneMore(files: Files, keys: seq<string>, file: (string, string), base: Tree, staged: Tree)
    requires Lists(files, keys, base, staged) && file.0 !in keys && IsChange(file, base, staged)
    ensures Lists(files + [file], keys + [file.0], base, staged)
  {
    PathsSnoc(files + [file]);
    assert (files + [file])[..|files|] == files;
    hide Changed, Paths;
  }

  lemma ListsNoMore(files: Files, keys: seq<string>, key: string, base: Tree, staged: Tree)
    requires Lists(files, keys, base, staged) && !Changed(base, staged, key)
    ensures Lists(files, keys + [key], base, staged)
  {
    hide Changed, Paths;
  }

  lemma {:induction false} CopiedPaths(keys: seq<string>, base: Tree, staged: Tree)
    requires forall i, j | 0 <= i < j < |keys| :: keys[i] != keys[j]
    ensures Lists(CopiedFiles(DiffOver(keys, base, staged)), keys, base, staged)
  {
    if keys != [] {
      var n := |keys| - 1;
      CopiedPaths(keys[..n], base, staged);
      var last := keys[n];
      var rest := DiffOver(keys[..n], base, staged);
      assert keys == keys[..n] + [last] && last !in keys[..n];
      CopiedOneMore(rest, keys, base, staged);
      hide Lists, DiffOver, CopiedFiles;
      if Changed(base, staged, last) {
        ListsOneMore(CopiedFiles(rest), keys[..n], (last, staged[last].content), base, staged);
      } else {
        ListsNoMore(CopiedFiles(rest), keys[..n], last, base, staged);
      }
    }
  }

  lemma CopiedOneMore(rest: seq<FileChange>, keys: seq<string>, base: Tree, staged: Tree)
    requires keys != [] && rest == DiffOver(keys[..|keys| - 1], base, staged)
    ensures var last := keys[|keys| - 1];
            CopiedFiles(DiffOver(keys, base, staged)) ==
              if Changed(base, staged, last) then CopiedFiles(rest) + [(last, staged[last].content)]
              else CopiedFiles(rest)
  {
    var last := keys[|keys| - 1];
    var c := FileChange(last, Entry(base, last), Entry(staged, last));
    assert (rest + [c])[..|rest|] == rest;
  }

  lemma KeysDiffer(keys: seq<string>)
    requires Increasing(keys)
    ensures forall i, j | 0 <= i < j < |keys| :: keys[i] != keys[j]
  {
    forall i, j | 0 <= i < j < |keys| ensures keys[i] != keys[j] {
      LessIsStrict(keys[i], keys[j]);
    }
  }

  /** The promotion as one execution: refused exactly by a clash of kinds, and otherwise an overlay
      of the changed files. */
  lemma PromotionOverlays(base: Tree, staged: Tree) returns (files: Files)
    requires WellFormed(staged)
    ensures var promoted := Trees.Promoted(base, Diff(base, staged));
            && (promoted.None? <==> KindsClash(base, staged))
            && (promoted.Some? ==> Overlays(base, files, promoted.value))
    ensures forall i | 0 <= i < |files| :: IsChange(files[i], base, staged)
    ensures forall p :: p in Paths(files) <==> Changed(base, staged, p)
  {
    var keys := SortedKeys(base.Keys + staged.Keys);
    files := CopiedFiles(DiffOver(keys, base, staged));
    KeysDiffer(keys);
    CopiedPaths(keys, base, staged);
    PromotedIsExecuted(base, DiffOver(keys, base, staged));
    hide Executed, Trees.Promoted, Increasing, Less, DiffOver, CopiedFiles;
    ExecutionDecided(base, files);
    ChangedPaths(files, keys, base, staged);
    ClashIsKindsClash(base, staged, files);
  }

  lemma ChangedPaths(files: Files, keys: seq<string>, base: Tree, staged: Tree)
    requires Lists(files, keys, base, staged) && forall p | p in staged :: p in keys
    ensures forall p :: p in Paths(files) <==> Changed(base, staged, p)
  {}

  lemma ClashIsKindsClash(base: Tree, staged: Tree, files: Files)
    requires WellFormed(staged) && forall p :: p in Paths(files) <==> Changed(base, staged, p)
    ensures Clash(base, files) <==> KindsClash(base, staged)
  {
    hide Changed, Parents;
    NewParentsOf(files);
    forall p | p in Paths(files) && p in NewParents(files) ensures false {
      var f :| f in Paths(files) && p in Parents(f);
      assert Changed(base, staged, f) && Changed(base, staged, p);
      ChangedIsFile(base, staged, f);
      ChangedIsFile(base, staged, p);
    }
  }

  lemma ChangedIsFile(base: Tree, staged: Tree, p: string)
    requires Changed(base, staged, p)
    ensures p in staged && staged[p].File?
  {}

  lemma NewParentsOf(files: Files)
    ensures forall q :: q in NewParents(files) <==> exists p :: p in Paths(files) && q in Parents(p)
  {
    hide Parents;
    forall q | q in NewParents(files) ensures exists p :: p in Paths(files) && q in Parents(p) {
      var i :| 0 <= i < |files| && q in Parents(files[i].0);
      assert files[i].0 in Paths(files);
    }
  }

  // ----- what the promotion leaves ------------------------------------------------------------------

  ghost predicate AboveChange(base: Tree, staged: Tree, q: string) {
    exists f :: Changed(base, staged, f) && q in Parents(f)
  }

  /** The base tree with the changed files and their parents. */
  ghost predicate Rebuilds(base: Tree, staged: Tree, tree: Tree) {
    && (forall p :: p in tree <==> p in base || Changed(base, staged, p) || AboveChange(base, staged, p))
    && (forall p | Changed(base, staged, p) :: tree[p] == staged[p])
    && (forall p | AboveChange(base, staged, p) :: tree[p] == Directory)
    && (forall p | p in base && !Changed(base, staged, p) :: tree[p] == base[p])
  }

  lemma PromotionRebuilds(base: Tree, staged: Tree)
    requires WellFormed(staged)
    ensures var promoted := Trees.Promoted(base, Diff(base, staged));
            && (promoted.None? <==> KindsClash(base, staged))
            && (promoted.Some? ==> Rebuilds(base, staged, promoted.value))
  {
    hide Trees.Promoted, Diff, KindsClash, WellFormed;
    var files := PromotionOverlays(base, staged);
    var promoted := Trees.Promoted(base, Diff(base, staged));
    if promoted.Some? {
      OverlayRebuilds(base, staged, files, promoted.value);
    }
  }

  lemma OverlayRebuilds(base: Tree, staged: Tree, files: Files, tree: Tree)
    requires Overlays(base, files, tree)
    requires forall i | 0 <= i < |files| :: IsChange(files[i], base, staged)
    requires forall p :: p in Paths(files) <==> Changed(base, staged, p)
    ensures Rebuilds(base, staged, tree)
  {
    hide Changed, Parents;
    NewParentsOf(files);
    forall p ensures p in tree <==> p in base || Changed(base, staged, p) || AboveChange(base, staged, p) {
      assert p in tree <==> p in base.Keys + Paths(files) + NewParents(files);
    }
    forall p | Changed(base, staged, p) ensures p in staged && p in tree && tree[p] == staged[p] {
      ChangedIsFile(base, staged, p);
      assert p in Paths(files);
      var i :| 0 <= i < |files| && files[i].0 == p;
      assert IsChange(files[i], base, staged);
    }
  }

  /** In well-formed trees, a new entry of the promotion is a new entry of the stage with a file. */
  lemma NewEntry(base: Tree, staged: Tree, tree: Tree, q: string)
    requires WellFormed(base) && WellFormed(staged) && Rebuilds(base, staged, tree) && q !in base
    ensures q in tree <==> HoldsFile(staged, q)
  {
    if q in tree && !Changed(base, staged, q) {
      assert AboveChange(base, staged, q);
      var f :| Changed(base, staged, f) && q in Parents(f);
      assert f in staged && staged[f].File?;
    }
    if HoldsFile(staged, q) && !staged[q].File? {
      var f :| f in staged && staged[f].File? && q in Parents(f);
      assert f !in base;
      assert Changed(base, staged, f);
      assert AboveChange(base, staged, q);
    }
  }

  lemma AliasDecided(base: Tree, staged: Tree, tree: Tree, fold: Folding)
    requires WellFormed(base) && WellFormed(staged) && Rebuilds(base, staged, tree)
    requires !Aliased(base, fold) && !Aliased(staged, fold)
    ensures Aliased(tree, fold) <==> AliasesDeleted(base, staged, fold)
  {
    hide PortableKey, WellFormed, HoldsFile, Rebuilds;
    if Aliased(tree, fold) {
      var p, q :| p in tree && q in tree && p != q && PortableKey(p, fold) == PortableKey(q, fold);
      var gone, made := if p in base && p !in staged then p else q, if p in base && p !in staged then q else p;
      EntryIsKnown(base, staged, tree, p);
      EntryIsKnown(base, staged, tree, q);
      assert gone in base && gone !in staged && made !in base;
      NewEntry(base, staged, tree, made);
    }
    if AliasesDeleted(base, staged, fold) {
      var p, q :| p in base && p !in staged && HoldsFile(staged, q) && q !in base
        && PortableKey(p, fold) == PortableKey(q, fold);
      NewEntry(base, staged, tree, q);
      EntryIsKnown(base, staged, tree, p);
      assert p in tree && q in tree && p != q;
    }
  }

  lemma EntryIsKnown(base: Tree, staged: Tree, tree: Tree, p: string)
    requires WellFormed(base) && WellFormed(staged) && Rebuilds(base, staged, tree)
    ensures p in base ==> p in tree
    ensures p in tree && p !in base ==> p in staged
  {
    if p !in base {
      NewEntry(base, staged, tree, p);
    }
    hide Changed, AboveChange;
  }

  lemma DoneDecided(base: Tree, staged: Tree, tree: Tree)
    requires WellFormed(base) && WellFormed(staged) && Rebuilds(base, staged, tree)
    requires !KindsClash(base, staged)
    ensures tree == staged <==> OnlyAddsFiles(base, staged)
  {
    forall q | q !in base ensures q in tree <==> HoldsFile(staged, q) {
      NewEntry(base, staged, tree, q);
    }
    hide WellFormed, HoldsFile;
    if tree == staged {
      forall p | p in base ensures p in staged && (base[p].File? <==> staged[p].File?) {
        KeptKind(base, staged, tree, p);
      }
    }
    if OnlyAddsFiles(base, staged) {
      forall p | p in staged ensures p in tree && tree[p] == staged[p] {
        SameEntry(base, staged, tree, p);
      }
      assert tree.Keys == staged.Keys;
    }
  }

  lemma KeptKind(base: Tree, staged: Tree, tree: Tree, p: string)
    requires Rebuilds(base, staged, tree) && !KindsClash(base, staged) && tree == staged && p in base
    ensures p in staged && (base[p].File? <==> staged[p].File?)
  {
    hide Parents;
  }

  lemma SameEntry(base: Tree, staged: Tree, tree: Tree, p: string)
    requires WellFormed(staged) && Rebuilds(base, staged, tree) && OnlyAddsFiles(base, staged) && p in staged
    requires p !in base ==> (p in tree <==> HoldsFile(staged, p))
    ensures p in tree && tree[p] == staged[p]
  {
    hide HoldsFile, Parents;
    if AboveChange(base, staged, p) {
      var f :| Changed(base, staged, f) && p in Parents(f);
      assert f in staged && staged[p] == Directory;
    }
  }

  /** What a caller can tell from the two trees: a promotion at which nothing fails yields the staged
      tree if and only if the stage only adds files and keeps the kind of every entry, and leaves
      aliased entries if and only if it can be made at all and a deleted entry shares its portable
      key with a created one.  In all other cases it is undone. */
  lemma CalmEndingDecided(base: Tree, staged: Tree, backup: Tree, fold: Folding)
    requires WellFormed(base) && WellFormed(staged) && !Aliased(base, fold) && !Aliased(staged, fold)
    ensures var end := CalmEndingOf(base, staged, backup, fold);
            && (end.Done? <==> OnlyAddsFiles(base, staged))
            && (end.Unread? <==> !KindsClash(base, staged) && AliasesDeleted(base, staged, fold))
            && (end.Broken? <==>
                  && !OnlyAddsFiles(base, staged) && Aliased(backup, fold)
                  && (KindsClash(base, staged) || !AliasesDeleted(base, staged, fold)))
  {
    hide Trees.Promoted, Diff, WellFormed, KindsClash, AliasesDeleted, OnlyAddsFiles, Aliased, Rebuilds;
    PromotionRebuilds(base, staged);
    var promoted := Trees.Promoted(base, Diff(base, staged));
    if promoted.Some? {
      AliasDecided(base, staged, promoted.value, fold);
      DoneDecided(base, staged, promoted.value);
    } else {
      ClashAddsMore(base, staged);
    }
  }

  lemma ClashAddsMore(base: Tree, staged: Tree)
    requires WellFormed(staged) && KindsClash(base, staged)
    ensures !OnlyAddsFiles(base, staged)
  {
    hide HoldsFile, Parents;
  }
}
