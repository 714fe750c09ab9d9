/** A file system below the extraction stage, and what a list of directory and file writes does to it. */
module FileTree {
  import opened Wrappers
  import opened ArchiveNames

  type Bytes = seq<bv8>

  datatype Node = Dir | File(content: Bytes)

  type Tree = map<Path, Node>

  /** The stage itself, freshly made. */
  const EMPTY_STAGE: Tree := map[[] := Dir]

  datatype Entry = DirEntry(path: Path) | FileEntry(path: Path, content: Bytes)

  /** mkdir(parents=True, exist_ok=True): fails when a file is in the way. */
  function MakeDirs(fs: Tree, path: Path): Option<Tree>
    decreases |path|
  {
    if path == [] then (if [] in fs && fs[[]].Dir? then Some(fs) else None)
    else
      match MakeDirs(fs, path[..|path| - 1])
      case None => None
      case Some(above) =>
        if path !in above then Some(above[path := Dir])
        else if above[path].Dir? then Some(above)
        else None
  }

  /** Opening for writing: the stage and existing directories cannot be overwritten. */
  function WriteOne(fs: Tree, e: Entry): Option<Tree> {
    match e
    case DirEntry(path) => MakeDirs(fs, path)
    case FileEntry(path, content) =>
      if path == [] then None
      else
        match MakeDirs(fs, path[..|path| - 1])
        case None => None
        case Some(above) => if path in above && above[path].Dir? then None else Some(above[path := File(content)])
  }

  function WriteAll(fs: Tree, entries: seq<Entry>): Option<Tree> {
    if entries == [] then Some(fs)
    else
      match WriteAll(fs, entries[..|entries| - 1])
      case None => None
      case Some(mid) => WriteOne(mid, entries[|entries| - 1])
  }

  // ---------- what the result should be ----------

  /** q lies at p or below it. */
  predicate Within(p: Path, q: Path) {
    p <= q
  }

  /** Two entries can stand side by side: neither is a file at or above the place of the other. */
  predicate Compatible(a: Entry, b: Entry) {
    (a.FileEntry? ==> !Within(a.path, b.path)) && (b.FileEntry? ==> !Within(b.path, a.path))
  }

  /** The entries describe a tree: no file at the root, and no two entries in each other's way. */
  ghost predicate Buildable(entries: seq<Entry>) {
    && (forall i :: 0 <= i < |entries| && entries[i].FileEntry? ==> entries[i].path != [])
    && (forall i, j :: 0 <= i < j < |entries| ==> Compatible(entries[i], entries[j]))
  }

  ghost predicate IsFileOf(entries: seq<Entry>, p: Path, content: Bytes) {
    exists i :: 0 <= i < |entries| && entries[i] == FileEntry(p, content)
  }

  ghost predicate IsNeeded(entries: seq<Entry>, p: Path) {
    p == [] || exists i :: 0 <= i < |entries| && Within(p, entries[i].path)
  }

  /** fs holds exactly the named files with their contents, the named directories, and the
      directories above them. */
  ghost predicate Holds(fs: Tree, entries: seq<Entry>) {
    && (forall p :: p in fs <==> IsNeeded(entries, p))
    && (forall p :: p in fs ==> (fs[p].Dir? <==> forall c :: !IsFileOf(entries, p, c)))
    && (forall p, c :: IsFileOf(entries, p, c) ==> p in fs && fs[p] == File(c))
  }

  /** There is only one such tree. */
  lemma HoldsIsUnique(fs: Tree, fs': Tree, entries: seq<Entry>)
    requires Holds(fs, entries) && Holds(fs', entries)
    ensures fs == fs'
  {
    forall p | p in fs ensures p in fs' && fs'[p] == fs[p] {
      assert IsNeeded(entries, p);
      if fs[p].File? {
        assert exists c :: IsFileOf(entries, p, c);
        var c :| IsFileOf(entries, p, c);
      }
    }
    forall p | p in fs' ensures p in fs {
      assert IsNeeded(entries, p);
    }
  }

  // ---------- mkdir ----------

  /** Every proper ancestor of an existing node is a directory. */
  ghost predicate Rooted(fs: Tree) {
    && [] in fs && fs[[]].Dir?
    && forall p, q :: p in fs && IsAncestor(q, p) ==> q in fs && fs[q].Dir?
  }

  lemma {:induction false} MakeDirsIs(fs: Tree, path: Path)
    requires Rooted(fs)
    ensures MakeDirs(fs, path).Some? <==> forall q :: q in fs && Within(q, path) ==> fs[q].Dir?
    ensures MakeDirs(fs, path).Some? ==>
              var fs' := MakeDirs(fs, path).value;
              && (forall p :: p in fs' <==> p in fs || Within(p, path))
              && (forall p :: p in fs' ==> fs'[p] == if p in fs then fs[p] else Dir)
    decreases |path|
  {
    if path == [] {
      assert forall q :: Within(q, path) ==> q == [];
    } else {
      MakeDirsIs(fs, path[..|path| - 1]);
      PrefixesOf(path);
    }
  }

  lemma PrefixesOf(path: Path)
    requires path != []
    ensures forall q :: Within(q, path) <==> q == path || Within(q, path[..|path| - 1])
  {
    forall q | Within(q, path) ensures q == path || Within(q, path[..|path| - 1]) {
      if |q| < |path| { assert q == path[..|q|] == path[..|path| - 1][..|q|]; }
    }
  }

  // ---------- writing ----------

  ghost predicate DistinctPaths(entries: seq<Entry>) {
    forall i, j :: 0 <= i < j < |entries| ==> entries[i].path != entries[j].path
  }

  lemma HoldsIsRooted(fs: Tree, entries: seq<Entry>)
    requires Holds(fs, entries) && Buildable(entries)
    ensures Rooted(fs)
  {
    forall p, q | p in fs && IsAncestor(q, p) ensures q in fs && fs[q].Dir? {
      assert IsNeeded(entries, p);
      var i :| 0 <= i < |entries| && Within(p, entries[i].path);
      assert q <= p <= entries[i].path;
      assert Within(q, entries[i].path);
      assert IsNeeded(entries, q);
      forall c ensures !IsFileOf(entries, q, c) {
        if IsFileOf(entries, q, c) {
          var j :| 0 <= j < |entries| && entries[j] == FileEntry(q, c);
          NotAbove(entries, j, i);
        }
      }
    }
    assert IsNeeded(entries, []);
    forall c ensures !IsFileOf(entries, [], c) {
    }
  }

  lemma NotAbove(entries: seq<Entry>, j: nat, i: nat)
    requires Buildable(entries) && j < |entries| && i < |entries| && j != i && entries[j].FileEntry?
    ensures !Within(entries[j].path, entries[i].path)
  {
    if j < i {
      assert Compatible(entries[j], entries[i]);
    } else {
      assert Compatible(entries[i], entries[j]);
    }
  }

  /** Buildable, seen from the last entry. */
  lemma BuildableSnoc(entries: seq<Entry>, e: Entry)
    ensures Buildable(entries + [e]) <==>
            Buildable(entries) && (e.FileEntry? ==> e.path != []) &&
            forall i :: 0 <= i < |entries| ==> Compatible(entries[i], e)
  {
    var all := entries + [e];
    if Buildable(all) {
      forall i, j | 0 <= i < j < |entries| ensures Compatible(entries[i], entries[j]) {
        assert Compatible(all[i], all[j]);
      }
      forall i | 0 <= i < |entries| ensures Compatible(entries[i], e) {
        assert Compatible(all[i], all[|entries|]);
      }
      forall i | 0 <= i < |entries| && entries[i].FileEntry? ensures entries[i].path != [] {
        assert all[i] == entries[i];
      }
      assert all[|entries|] == e;
    }
  }

  lemma NeededSnoc(entries: seq<Entry>, e: Entry, p: Path)
    ensures IsNeeded(entries + [e], p) <==> IsNeeded(entries, p) || Within(p, e.path)
  {
    var all := entries + [e];
    if i :| 0 <= i < |entries| && Within(p, entries[i].path) {
      assert all[i] == entries[i];
    }
    assert all[|entries|] == e;
  }

  lemma FileOfSnoc(entries: seq<Entry>, e: Entry, p: Path, c: Bytes)
    ensures IsFileOf(entries + [e], p, c) <==> IsFileOf(entries, p, c) || e == FileEntry(p, c)
  {
    var all := entries + [e];
    if i :| 0 <= i < |entries| && entries[i] == FileEntry(p, c) {
      assert all[i] == entries[i];
    }
    assert all[|entries|] == e;
  }

  /** A file of the tree comes from a file entry. */
  lemma FileHasEntry(fs: Tree, entries: seq<Entry>, p: Path) returns (i: nat)
    requires Holds(fs, entries) && p in fs && fs[p].File?
    ensures i < |entries| && entries[i] == FileEntry(p, fs[p].content)
  {
    assert exists c :: IsFileOf(entries, p, c);
    var c :| IsFileOf(entries, p, c);
    i :| 0 <= i < |entries| && entries[i] == FileEntry(p, c);
  }

  /** No file lies at or above a path exactly when every entry lets a directory stand there. */
  lemma FreeOfFiles(fs: Tree, entries: seq<Entry>, path: Path)
    requires Holds(fs, entries)
    ensures (forall q :: q in fs && Within(q, path) ==> fs[q].Dir?) <==>
            (forall i :: 0 <= i < |entries| && entries[i].FileEntry? ==> !Within(entries[i].path, path))
  {
    forall q | q in fs && Within(q, path) && fs[q].File?
      ensures exists i :: 0 <= i < |entries| && entries[i].FileEntry? && Within(entries[i].path, path)
    {
      var i := FileHasEntry(fs, entries, q);
    }
    forall i | 0 <= i < |entries| && entries[i].FileEntry? && Within(entries[i].path, path)
      ensures exists q :: q in fs && Within(q, path) && fs[q].File?
    {
      assert IsFileOf(entries, entries[i].path, entries[i].content);
    }
  }

  lemma WriteDirHolds(fs: Tree, entries: seq<Entry>, path: Path)
    requires Holds(fs, entries) && Buildable(entries)
    ensures WriteOne(fs, DirEntry(path)).Some? <==> Buildable(entries + [DirEntry(path)])
    ensures WriteOne(fs, DirEntry(path)).Some? ==>
              Holds(WriteOne(fs, DirEntry(path)).value, entries + [DirEntry(path)])
  {
    HoldsIsRooted(fs, entries);
    MakeDirsIs(fs, path);
    FreeOfFiles(fs, entries, path);
    BuildableSnoc(entries, DirEntry(path));
    if WriteOne(fs, DirEntry(path)).Some? {
      DirAdded(fs, WriteOne(fs, DirEntry(path)).value, entries, path);
    }
  }

  lemma DirAdded(fs: Tree, fs': Tree, entries: seq<Entry>, path: Path)
    requires Holds(fs, entries)
    requires forall p :: p in fs' <==> p in fs || Within(p, path)
    requires forall p :: p in fs' ==> fs'[p] == if p in fs then fs[p] else Dir
    ensures Holds(fs', entries + [DirEntry(path)])
  {
    var all := entries + [DirEntry(path)];
    forall p ensures p in fs' <==> IsNeeded(all, p) {
      NeededSnoc(entries, DirEntry(path), p);
    }
    forall p, c ensures IsFileOf(all, p, c) <==> IsFileOf(entries, p, c) {
      FileOfSnoc(entries, DirEntry(path), p, c);
    }
    forall p | p in fs' && p !in fs ensures forall c :: !IsFileOf(entries, p, c) {
    }
  }

  lemma FileAdded(fs: Tree, fs': Tree, entries: seq<Entry>, path: Path, content: Bytes)
    requires Holds(fs, entries) && path !in fs
    requires forall p :: p in fs' <==> p in fs || Within(p, path)
    requires forall p :: p in fs' ==> fs'[p] == if p in fs then fs[p] else if p == path then File(content) else Dir
    ensures Holds(fs', entries + [FileEntry(path, content)])
  {
    var e := FileEntry(path, content);
    var all := entries + [e];
    forall p ensures p in fs' <==> IsNeeded(all, p) {
      NeededSnoc(entries, e, p);
    }
    forall p, c ensures IsFileOf(all, p, c) <==> IsFileOf(entries, p, c) || (p == path && c == content) {
      FileOfSnoc(entries, e, p, c);
    }
    assert IsFileOf(all, path, content);
    assert Within(path, path);
  }

  lemma WriteFileHolds(fs: Tree, entries: seq<Entry>, path: Path, content: Bytes)
    requires Holds(fs, entries) && Buildable(entries)
    requires forall i :: 0 <= i < |entries| ==> entries[i].path != path
    ensures WriteOne(fs, FileEntry(path, content)).Some? <==> Buildable(entries + [FileEntry(path, content)])
    ensures WriteOne(fs, FileEntry(path, content)).Some? ==>
              Holds(WriteOne(fs, FileEntry(path, content)).value, entries + [FileEntry(path, content)])
  {
    var e := FileEntry(path, content);
    BuildableSnoc(entries, e);
    if path != [] {
      var up := path[..|path| - 1];
      HoldsIsRooted(fs, entries);
      MakeDirsIs(fs, up);
      FreeOfFiles(fs, entries, up);
      PrefixesOf(path);
      assert path in fs <==> IsNeeded(entries, path);
      if path in fs && fs[path].File? {
        var i := FileHasEntry(fs, entries, path);
      }
      if WriteOne(fs, e).Some? {
        FileAdded(fs, WriteOne(fs, e).value, entries, path, content);
      }
    }
  }

  /** Writing any list of entries with distinct paths, in any order, onto the empty stage succeeds
      exactly when they describe a tree, and then leaves exactly that tree. */
  lemma {:induction false} WriteAllBuilds(entries: seq<Entry>)
    requires DistinctPaths(entries)
    ensures WriteAll(EMPTY_STAGE, entries).Some? <==> Buildable(entries)
    ensures WriteAll(EMPTY_STAGE, entries).Some? ==> Holds(WriteAll(EMPTY_STAGE, entries).value, entries)
  {
    if entries != [] {
      var init, e := entries[..|entries| - 1], entries[|entries| - 1];
      assert entries == init + [e];
      WriteAllBuilds(init);
      BuildableSnoc(init, e);
      if WriteAll(EMPTY_STAGE, init).Some? {
        var fs := WriteAll(EMPTY_STAGE, init).value;
        match e
        case DirEntry(path) => WriteDirHolds(fs, init, path);
        case FileEntry(path, content) => WriteFileHolds(fs, init, path, content);
      }
    }
  }
}
