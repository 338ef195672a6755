/**
 The embedded assets (pkg/asset/asset.go): a tree of names beside a flat table of
 contents, and the recursive restore that walks the one and reads the other.
 */
module Assets {
  import opened Results
  import opened Paths

  /** A node of the tree; `leaf` tells that its generator is not nil. */
  datatype Tree = Node(leaf: bool, children: map<string, Tree>)

  datatype File = File(bytes: string, mode: nat, modTime: int)

  /** The table: what each generator yields, or None if it cannot be read. */
  type Table = map<string, Option<File>>

  /**
   What can go wrong with one file: a path of directories may be made only in part, and a
   failed write may leave anything behind.
   */
  datatype DiskFault = NoFault | MkdirFails(made: nat) | WriteFails(left: Option<File>) | ChtimesFails(now: int)

  function Walk(t: Tree, path: seq<string>): Option<Tree> {
    if path == [] then Some(t)
    else if path[0] in t.children then Walk(t.children[path[0]], path[1..])
    else None
  }

  /** Entry names are proper, and files have no entries. */
  ghost predicate WellFormed(t: Tree) {
    && (t.leaf ==> t.children == map[])
    && forall name :: name in t.children ==> Proper(name) && WellFormed(t.children[name])
  }

  /** The table lists exactly the leaves of the tree, by path. */
  ghost predicate Agrees(t: Tree, table: Table) {
    !t.leaf && forall name :: name in table <==> Walk(t, Split(name)).Some? && Walk(t, Split(name)).value.leaf
  }

  /** The entry's path equals or extends the given one. */
  predicate Under(path: seq<string>, name: string) {
    path <= Split(name)
  }

  /** The readable entries at or below a path, with the table's contents. */
  function Wanted(table: Table, path: seq<string>): map<string, File> {
    map name | name in table && Under(path, name) && table[name].Some? :: table[name].value
  }

  /**
   Files over which others were written: a file that existed keeps its mode, a new one
   gets what the process's mask leaves of the wanted mode.
   */
  function Written(before: map<string, File>, wanted: map<string, File>, masked: nat -> nat): map<string, File> {
    before + map name | name in wanted ::
               wanted[name].(mode := if name in before then before[name].mode else masked(wanted[name].mode))
  }

  /** A directory with all those above it. */
  function Prefixes(path: seq<string>): set<seq<string>> {
    set i | 0 <= i <= |path| :: path[..i]
  }

  function Parent(name: string): seq<string> {
    Split(name)[..|Split(name)| - 1]
  }

  /** The directories that restoring a name makes. */
  function MadeDirs(name: string): set<seq<string>> {
    Prefixes(Place(Dir(name)))
  }

  /** The directory of the file exists once those of the name are made. */
  predicate ParentReady(dirs: set<seq<string>>, name: string) {
    Parent(Canonical(name)) in dirs + MadeDirs(name)
  }

  /** Only directories above entries at or below the path may be new. */
  ghost predicate NewDirs(table: Table, path: seq<string>, before: set<seq<string>>, after: set<seq<string>>) {
    && before <= after
    && forall d :: d in after && d !in before ==> exists n :: n in table && Under(path, n) && d < Split(n)
  }

  /** The directory of each entry at or below the path exists. */
  ghost predicate ParentsIn(table: Table, path: seq<string>, dirs: set<seq<string>>) {
    forall n :: n in table && Under(path, n) ==> Parent(n) in dirs
  }

  /** Nothing at or below a path fails to be read or written. */
  ghost predicate Restorable(table: Table, disk: string -> DiskFault, path: seq<string>) {
    forall name :: name in table && Under(path, name) ==> table[name].Some? && disk(name) == NoFault
  }

  /** Only files at or below the path may differ. */
  ghost predicate SameOutside(table: Table, path: seq<string>, before: map<string, File>, after: map<string, File>) {
    forall name :: !(name in table && Under(path, name)) ==>
      (name in after <==> name in before) && (name in after ==> after[name] == before[name])
  }

  // ---------- facts about the tree ----------

  lemma {:induction false} WalkProper(t: Tree, path: seq<string>)
    requires WellFormed(t) && Walk(t, path).Some?
    ensures forall i :: 0 <= i < |path| ==> Proper(path[i])
    ensures WellFormed(Walk(t, path).value)
    decreases |path|
  {
    if path != [] {
      WalkProper(t.children[path[0]], path[1..]);
      assert forall i :: 1 <= i < |path| ==> path[i] == path[1..][i - 1];
    }
  }

  lemma {:induction false} WalkConcat(t: Tree, path: seq<string>, rest: seq<string>)
    ensures Walk(t, path + rest) ==
            match Walk(t, path)
            case None => None
            case Some(n) => Walk(n, rest)
    decreases |path|
  {
    if path == [] {
      assert path + rest == rest;
    } else if path[0] in t.children {
      assert (path + rest)[1..] == path[1..] + rest;
      WalkConcat(t.children[path[0]], path[1..], rest);
    }
  }

  /** At or below a directory means at or below one of its entries. */
  lemma UnderDirectory(t: Tree, table: Table, path: seq<string>, name: string)
    requires Agrees(t, table) && name in table
    requires Walk(t, path).Some? && !Walk(t, path).value.leaf
    ensures Under(path, name) <==> exists child :: child in Walk(t, path).value.children && Under(path + [child], name)
  {
    var segments, node := Split(name), Walk(t, path).value;
    if Under(path, name) {
      var rest := segments[|path|..];
      assert segments == path + rest;
      WalkConcat(t, path, rest);
      assert rest != [];
      var child := rest[0];
      assert path + [child] <= segments;
      assert child in node.children;
    }
  }

  /** At or below a file means that file. */
  lemma UnderFile(t: Tree, table: Table, path: seq<string>, name: string)
    requires WellFormed(t) && Agrees(t, table) && name in table
    requires Walk(t, path).Some? && Walk(t, path).value.leaf
    ensures Under(path, name) <==> Split(name) == path
  {
    if Under(path, name) {
      WalkProper(t, path);
      var rest := Split(name)[|path|..];
      assert Split(name) == path + rest;
      WalkConcat(t, path, rest);
    }
  }

  /** What the entries of a directory want together, in the order in which they are restored. */
  function WantedByEach(table: Table, path: seq<string>, children: seq<string>): map<string, File> {
    if children == [] then map[]
    else WantedByEach(table, path, children[..|children| - 1]) + Wanted(table, path + [children[|children| - 1]])
  }

  lemma {:induction false} WantedByEachAt(table: Table, path: seq<string>, children: seq<string>, name: string)
    ensures name in WantedByEach(table, path, children) <==>
              name in table && table[name].Some? && exists i :: 0 <= i < |children| && Under(path + [children[i]], name)
    ensures name in WantedByEach(table, path, children) ==>
              WantedByEach(table, path, children)[name] == table[name].value
  {
    if children != [] {
      hide Under;
      var n := |children| - 1;
      WantedByEachAt(table, path, children[..n], name);
      assert forall i :: 0 <= i < n ==> children[..n][i] == children[i];
    }
  }

  lemma WantedByDirectory(t: Tree, table: Table, path: seq<string>, children: seq<string>)
    requires Agrees(t, table) && Walk(t, path).Some? && !Walk(t, path).value.leaf
    requires forall c :: c in children <==> c in Walk(t, path).value.children
    ensures WantedByEach(table, path, children) == Wanted(table, path)
  {
    hide WantedByEach, Under;
    forall name
      ensures name in WantedByEach(table, path, children) <==> name in Wanted(table, path)
      ensures name in WantedByEach(table, path, children) ==>
                WantedByEach(table, path, children)[name] == table[name].value
    {
      WantedByEachAt(table, path, children, name);
      if name in table {
        UnderDirectory(t, table, path, name);
        if i :| 0 <= i < |children| && Under(path + [children[i]], name) {
          assert children[i] in children;
        }
      }
    }
  }

  /** A directory is restorable exactly when its entries are. */
  lemma RestorableByEach(t: Tree, table: Table, disk: string -> DiskFault, path: seq<string>)
    requires Agrees(t, table) && Walk(t, path).Some? && !Walk(t, path).value.leaf
    ensures Restorable(table, disk, path)
       <==> forall c :: c in Walk(t, path).value.children ==> Restorable(table, disk, path + [c])
  {
    forall name | name in table
      ensures Under(path, name) <==> exists c :: c in Walk(t, path).value.children && Under(path + [c], name)
    {
      UnderDirectory(t, table, path, name);
    }
  }

  // ---------- the package ----------

  class Package {
    const tree: Tree
    const table: Table
    /** What the process's mask leaves of a mode. */
    const masked: nat -> nat
    /** The files below the target directory, by canonical name. */
    var files: map<string, File>
    /** The directories that exist below the target, the target itself being empty. */
    var dirs: set<seq<string>>

    constructor (tree: Tree, table: Table, masked: nat -> nat, files: map<string, File>, dirs: set<seq<string>>)
      ensures this.tree == tree && this.table == table && this.masked == masked
      ensures this.files == files && this.dirs == dirs
    {
      this.tree := tree;
      this.table := table;
      this.masked := masked;
      this.files := files;
      this.dirs := dirs;
    }

    ghost predicate Valid() {
      WellFormed(tree) && Agrees(tree, table)
    }

    /** The contents of an asset, looked up in the table. */
    method Asset(name: string) returns (r: Option<File>)
      ensures r == if Canonical(name) in table then table[Canonical(name)] else None
    {
      var canonical := Canonical(name);
      if canonical in table { return table[canonical]; }
      return None;
    }

    /**
     The entries of a directory, each once, in some order; nothing for a file or for
     a name that is not in the tree.
     */
    method AssetDir(name: string) returns (r: Option<seq<string>>)
      ensures var node := Walk(tree, Segments(name));
              && (r.Some? <==> node.Some? && !node.value.leaf)
              && (r.Some? ==>
                    && (forall c :: c in r.value <==> c in node.value.children)
                    && (forall i, j :: 0 <= i < j < |r.value| ==> r.value[i] != r.value[j]))
    {
      var node := tree;
      if |name| != 0 {
        var pathList := Split(Canonical(name));
        for i := 0 to |pathList|
          invariant Walk(node, pathList[i..]) == Walk(tree, pathList)
        {
          if pathList[i] !in node.children { return None; }
          node := node.children[pathList[i]];
        }
      }
      if node.leaf { return None; }
      var rv: seq<string> := [];
      var left := node.children.Keys;
      while left != {}
        invariant left <= node.children.Keys
        invariant forall c :: c in rv <==> c in node.children.Keys - left
        invariant forall i, j :: 0 <= i < j < |rv| ==> rv[i] != rv[j]
        decreases |left|
      {
        var childName :| childName in left;
        assert forall i :: 0 <= i < |rv| ==> rv[i] in rv;
        rv := rv + [childName];
        left := left - {childName};
      }
      return Some(rv);
    }

    /**
     Writes one asset, if its directory exists once the directories of the name are made;
     a failed step may leave that one file different.
     */
    method RestoreAsset(name: string, disk: string -> DiskFault) returns (ok: bool)
      modifies this
      ensures ok <==> && Canonical(name) in table && table[Canonical(name)].Some? && disk(Canonical(name)) == NoFault
                      && ParentReady(old(dirs), name)
      ensures ok ==> files == Written(old(files), map[Canonical(name) := table[Canonical(name)].value], masked)
      ensures ok ==> dirs == old(dirs) + MadeDirs(name)
      ensures Canonical(name) !in table ==> files == old(files) && dirs == old(dirs)
      ensures files - {Canonical(name)} == old(files) - {Canonical(name)}
      ensures old(dirs) <= dirs <= old(dirs) + MadeDirs(name)
    {
      hide Canonical, Split, Place, Dir, Prefixes, Written;
      var data := Asset(name);
      if data.None? { return false; }
      var path := Canonical(name);
      WrittenOne(files, path, data.value, masked);
      var fault := disk(path);
      if fault.MkdirFails? {
        var place := Place(Dir(name));
        var made := if fault.made < |place| then Prefixes(place[..fault.made]) else {};
        PrefixesOfPrefix(place, fault.made);
        dirs := dirs + made;
        return false;
      }
      dirs := dirs + MadeDirs(name);
      if Parent(path) !in dirs { return false; }
      var mode := if path in files then files[path].mode else masked(data.value.mode);
      match fault {
        case WriteFails(left) =>
          files := if left.Some? then files[path := left.value] else files - {path};
          return false;
        case ChtimesFails(now) =>
          files := files[path := File(data.value.bytes, mode, now)];
          return false;
        case NoFault =>
          files := files[path := data.value.(mode := mode)];
          return true;
      }
    }

    /** The node that a name looks up; the recursion below descends along it. */
    function NodeAt(name: string): Tree {
      match Walk(tree, Segments(name))
      case Some(n) => n
      case None => Node(true, map[])
    }

    /**
     Restores a file, or a directory recursively, by name. It succeeds exactly when the
     name is a path of the tree, nothing at or below it fails and, if it is a file, its
     directory exists once that of the name is made. It then has written exactly the
     entries at or below the name, each with the table's contents. A name that is not in
     the tree changes nothing, and in no case does a file that is not at or below the name
     change. The recursion is on names, and ends because each name looks up a smaller node
     than the name before.
     */
    method RestoreAssets(name: string, disk: string -> DiskFault) returns (ok: bool)
      requires Valid()
      modifies this
      ensures ok <==> var node := Walk(tree, Segments(name));
                      node.Some? && Restorable(table, disk, Segments(name))
                      && (node.value.leaf ==> ParentReady(old(dirs), name))
      ensures ok ==> files == Written(old(files), Wanted(table, Segments(name)), masked)
      ensures ok ==> ParentsIn(table, Segments(name), dirs)
      ensures Walk(tree, Segments(name)).None? ==> files == old(files) && dirs == old(dirs)
      ensures SameOutside(table, Segments(name), old(files), files)
      ensures NewDirs(table, Segments(name), old(dirs), dirs)
      decreases NodeAt(name)
    {
      hide Restorable, Wanted, WantedByEach, SameOutside, Agrees, Proper, Join, Canonical;
      hide Written, ParentReady, ParentsIn, NewDirs, MadeDirs;
      ghost var path := Segments(name);
      var children := AssetDir(name);
      if children.None? {
        FileOrNothing(tree, table, disk, name);
        ok := RestoreAsset(name, disk);
        OneFile(table, name, old(files), files);
        OneFileDirs(tree, table, name, old(dirs), dirs);
        if ok { OneFileParents(tree, table, name, old(dirs), dirs); }
        return;
      }
      WalkProper(tree, path);
      RestorableByEach(tree, table, disk, path);
      ghost var start := Disk(files, dirs);
      NoProgress(table, disk, path, children.value, start, masked);
      for i := 0 to |children.value|
        invariant Progress(table, disk, path, children.value, i, start, Disk(files, dirs), masked)
      {
        var child := children.value[i];
        ghost var before := Disk(files, dirs);
        assert child in children.value;
        JoinAppends(name, child);
        WalkConcat(tree, path, [child]);
        EntryReady(tree, table, name, child, dirs);
        var restored := RestoreAssets(Join(name, child), disk);
        if !restored {
          FailedEntry(table, disk, path, children.value, i, start, before, Disk(files, dirs), masked);
          return false;
        }
        MoreProgress(table, disk, path, children.value, i, start, before, Disk(files, dirs), masked);
      }
      AllRestored(tree, table, disk, path, children.value, start, Disk(files, dirs), masked);
      return true;
    }
  }

  // ---------- progress over the entries of a directory ----------

  /** What the target holds. */
  datatype Disk = Disk(files: map<string, File>, dirs: set<seq<string>>)

  /** The first i entries are restored. */
  ghost predicate Progress(table: Table, disk: string -> DiskFault, path: seq<string>, children: seq<string>, i: nat,
                           start: Disk, now: Disk, masked: nat -> nat)
  {
    && i <= |children|
    && (forall j :: 0 <= j < i ==> Restorable(table, disk, path + [children[j]]))
    && (forall j :: 0 <= j < i ==> ParentsIn(table, path + [children[j]], now.dirs))
    && now.files == Written(start.files, WantedByEach(table, path, children[..i]), masked)
    && NewDirs(table, path, start.dirs, now.dirs)
  }

  lemma NoProgress(table: Table, disk: string -> DiskFault, path: seq<string>, children: seq<string>, start: Disk,
                   masked: nat -> nat)
    ensures Progress(table, disk, path, children, 0, start, start, masked)
  {
    hide Restorable, ParentsIn;
    WrittenNothing(table, path, start.files, masked);
    NoNewDirs(table, path, start.dirs);
  }

  lemma MoreProgress(table: Table, disk: string -> DiskFault, path: seq<string>, children: seq<string>, i: nat,
                     start: Disk, before: Disk, now: Disk, masked: nat -> nat)
    requires i < |children| && Progress(table, disk, path, children, i, start, before, masked)
    requires Restorable(table, disk, path + [children[i]]) && ParentsIn(table, path + [children[i]], now.dirs)
    requires now.files == Written(before.files, Wanted(table, path + [children[i]]), masked)
    requires NewDirs(table, path + [children[i]], before.dirs, now.dirs)
    ensures Progress(table, disk, path, children, i + 1, start, now, masked)
  {
    hide Restorable, ParentsIn, Written, WantedByEach, Wanted, NewDirs;
    MoreNewDirs(table, path, children[i], start.dirs, before.dirs, now.dirs);
    forall j | 0 <= j < i ensures ParentsIn(table, path + [children[j]], now.dirs) {
      MoreParents(table, path + [children[j]], before.dirs, now.dirs);
    }
    WrittenByOneMore(table, path, children, i, start.files, masked);
  }

  /** When an entry fails, only what is below the directory differs. */
  lemma FailedEntry(table: Table, disk: string -> DiskFault, path: seq<string>, children: seq<string>, i: nat,
                    start: Disk, before: Disk, now: Disk, masked: nat -> nat)
    requires i < |children| && Progress(table, disk, path, children, i, start, before, masked)
    requires SameOutside(table, path + [children[i]], before.files, now.files)
    requires NewDirs(table, path + [children[i]], before.dirs, now.dirs)
    ensures SameOutside(table, path, start.files, now.files)
    ensures NewDirs(table, path, start.dirs, now.dirs)
  {
    hide Restorable, ParentsIn, Written, NewDirs;
    MoreNewDirs(table, path, children[i], start.dirs, before.dirs, now.dirs);
    hide WantedByEach;
    var wanted := WantedByEach(table, path, children[..i]);
    forall name | !(name in table && Under(path, name))
      ensures name in now.files <==> name in start.files
      ensures name in now.files ==> now.files[name] == start.files[name]
    {
      WantedByEachAt(table, path, children[..i], name);
      assert forall c :: Under(path + [c], name) ==> path <= path + [c];
      WrittenAt(start.files, wanted, masked, name);
    }
  }

  /** When all entries are restored, so is the directory. */
  lemma AllRestored(t: Tree, table: Table, disk: string -> DiskFault, path: seq<string>, children: seq<string>,
                    start: Disk, now: Disk, masked: nat -> nat)
    requires Agrees(t, table) && Walk(t, path).Some? && !Walk(t, path).value.leaf
    requires forall c :: c in children <==> c in Walk(t, path).value.children
    requires Progress(table, disk, path, children, |children|, start, now, masked)
    ensures Restorable(table, disk, path) && ParentsIn(table, path, now.dirs)
    ensures now.files == Written(start.files, Wanted(table, path), masked)
    ensures SameOutside(table, path, start.files, now.files) && NewDirs(table, path, start.dirs, now.dirs)
  {
    hide Restorable, ParentsIn, Written, WantedByEach, Wanted, NewDirs, Agrees, SameOutside;
    assert children[..|children|] == children;
    WantedByDirectory(t, table, path, children);
    RestorableByEach(t, table, disk, path);
    assert forall c :: c in children ==> Restorable(table, disk, path + [c]);
    WrittenInside(table, path, start.files, masked);
    ParentsByEach(t, table, path, children, now.dirs);
  }

  // ---------- files ----------

  lemma WrittenNothing(table: Table, path: seq<string>, files: map<string, File>, masked: nat -> nat)
    ensures Written(files, WantedByEach(table, path, []), masked) == files
  {
  }

  lemma WrittenAt(files: map<string, File>, wanted: map<string, File>, masked: nat -> nat, name: string)
    ensures name in Written(files, wanted, masked) <==> name in files || name in wanted
    ensures name in wanted ==>
              Written(files, wanted, masked)[name]
              == wanted[name].(mode := if name in files then files[name].mode else masked(wanted[name].mode))
    ensures name in files && name !in wanted ==> Written(files, wanted, masked)[name] == files[name]
  {
  }

  lemma WrittenOne(files: map<string, File>, name: string, file: File, masked: nat -> nat)
    ensures Written(files, map[name := file], masked)
         == files[name := file.(mode := if name in files then files[name].mode else masked(file.mode))]
  {
  }

  /** Writing twice is writing once, when files wanted twice are wanted alike. */
  lemma WrittenTwice(files: map<string, File>, first: map<string, File>, second: map<string, File>,
                     masked: nat -> nat)
    requires forall name :: name in first && name in second ==> first[name] == second[name]
    ensures Written(Written(files, first, masked), second, masked) == Written(files, first + second, masked)
  {
    hide Written;
    var once, twice := Written(files, first + second, masked), Written(Written(files, first, masked), second, masked);
    forall name ensures name in twice <==> name in once
                ensures name in twice ==> twice[name] == once[name]
    {
      WrittenAt(files, first, masked, name);
      WrittenAt(Written(files, first, masked), second, masked, name);
      WrittenAt(files, first + second, masked, name);
    }
  }

  lemma WrittenByOneMore(table: Table, path: seq<string>, children: seq<string>, i: nat, start: map<string, File>,
                         masked: nat -> nat)
    requires i < |children|
    ensures Written(start, WantedByEach(table, path, children[..i + 1]), masked)
         == Written(Written(start, WantedByEach(table, path, children[..i]), masked),
                    Wanted(table, path + [children[i]]), masked)
  {
    assert children[..i + 1][..i] == children[..i];
    var first, second := WantedByEach(table, path, children[..i]), Wanted(table, path + [children[i]]);
    forall name | name in first && name in second ensures first[name] == second[name] {
      WantedByEachAt(table, path, children[..i], name);
    }
    hide WantedByEach, Wanted;
    WrittenTwice(start, first, second, masked);
  }

  /** Restoring changes nothing outside the path. */
  lemma WrittenInside(table: Table, path: seq<string>, start: map<string, File>, masked: nat -> nat)
    ensures SameOutside(table, path, start, Written(start, Wanted(table, path), masked))
  {
    hide Under;
  }

  lemma OneFile(table: Table, name: string, before: map<string, File>, after: map<string, File>)
    requires after - {Canonical(name)} == before - {Canonical(name)}
    requires Canonical(name) !in table ==> after == before
    requires Canonical(name) in table ==> Under(Segments(name), Canonical(name))
    ensures SameOutside(table, Segments(name), before, after)
  {
    forall n | !(n in table && Under(Segments(name), n))
      ensures (n in after <==> n in before) && (n in after ==> after[n] == before[n])
    {
      if n != Canonical(name) {
        assert n in after <==> n in after - {Canonical(name)};
        assert n in before <==> n in before - {Canonical(name)};
      }
    }
  }

  // ---------- directories ----------

  lemma PrefixesOfPrefix(path: seq<string>, n: nat)
    ensures n < |path| ==> Prefixes(path[..n]) <= Prefixes(path)
  {
    if n < |path| {
      forall d | d in Prefixes(path[..n]) ensures d in Prefixes(path) {
        var i :| 0 <= i <= n && d == path[..n][..i];
        assert d == path[..i];
      }
    }
  }

  /**
   Whether a file's directory will be there can be read off the name: it is made if the
   last separator is a slash, and must exist if it is a backslash, because filepath.Dir
   does not take that for a separator.
   */
  lemma ParentReadyIff(t: Tree, table: Table, dirs: set<seq<string>>, name: string)
    requires WellFormed(t) && Agrees(t, table) && Canonical(name) in table
    ensures ParentReady(dirs, name) <==> '\\' !in LastSegment(name) || Parent(Canonical(name)) in dirs
    ensures forall d :: d in MadeDirs(name) ==> d < Split(Canonical(name))
  {
    var path := Split(Canonical(name));
    WalkProper(t, path);
    DirPlace(name);
    hide Canonical, Split, Place, Dir, Agrees, WellFormed, Walk, Prefixes, LastSegment;
    PrefixesMeaning(Place(Dir(name)), path);
  }

  lemma PrefixesMeaning(place: seq<string>, path: seq<string>)
    requires place <= path && |place| < |path|
    ensures forall d :: d in Prefixes(place) ==> d < path
    ensures path[..|path| - 1] in Prefixes(place) <==> |place| == |path| - 1
  {
    if |place| == |path| - 1 {
      assert place[..|place|] == path[..|path| - 1];
    }
  }

  lemma NoNewDirs(table: Table, path: seq<string>, dirs: set<seq<string>>)
    ensures NewDirs(table, path, dirs, dirs)
  {
  }

  /** The directories made for one name are above that name. */
  lemma OneFileDirs(t: Tree, table: Table, name: string, before: set<seq<string>>, after: set<seq<string>>)
    requires WellFormed(t) && Agrees(t, table)
    requires before <= after <= before + MadeDirs(name)
    requires Canonical(name) !in table ==> after == before
    requires Canonical(name) in table ==> Under(Segments(name), Canonical(name))
    ensures NewDirs(table, Segments(name), before, after)
  {
    if Canonical(name) in table {
      ParentReadyIff(t, table, before, name);
    }
  }

  lemma OneFileParents(t: Tree, table: Table, name: string, before: set<seq<string>>, after: set<seq<string>>)
    requires WellFormed(t) && Agrees(t, table) && Canonical(name) in table
    requires Walk(t, Segments(name)).Some? && Walk(t, Segments(name)).value.leaf
    requires ParentReady(before, name) && after == before + MadeDirs(name)
    ensures ParentsIn(table, Segments(name), after)
  {
    hide MadeDirs, WellFormed, Agrees;
    CanonicalIsPath(t, table, name);
    forall n | n in table && Under(Segments(name), n) ensures Parent(n) in after {
      UnderFile(t, table, Segments(name), n);
    }
  }

  /** Joined to a directory's name, an entry's name ends with a slash and the entry. */
  lemma JoinedParentReady(t: Tree, table: Table, name: string, child: string, dirs: set<seq<string>>)
    requires WellFormed(t) && Agrees(t, table) && Proper(child)
    requires forall i :: 0 <= i < |Segments(name)| ==> Proper(Segments(name)[i])
    requires Walk(t, Segments(Join(name, child))).Some? && Walk(t, Segments(Join(name, child))).value.leaf
    ensures ParentReady(dirs, Join(name, child))
  {
    var joined := Join(name, child);
    JoinAppends(name, child);
    JoinEndsWith(name, child);
    assert Segments(joined) == Split(Canonical(joined));
    hide Split, Canonical, Join, LastSegment, Proper;
    assert Canonical(joined) in table;
    ParentReadyIff(t, table, dirs, joined);
  }

  lemma EntryReady(t: Tree, table: Table, name: string, child: string, dirs: set<seq<string>>)
    requires WellFormed(t) && Agrees(t, table) && Proper(child)
    requires forall i :: 0 <= i < |Segments(name)| ==> Proper(Segments(name)[i])
    requires Walk(t, Segments(Join(name, child))).Some?
    ensures Walk(t, Segments(Join(name, child))).value.leaf ==> ParentReady(dirs, Join(name, child))
  {
    hide ParentReady, Join, Proper, Agrees, WellFormed;
    if Walk(t, Segments(Join(name, child))).value.leaf {
      JoinedParentReady(t, table, name, child, dirs);
    }
  }

  lemma MoreNewDirs(table: Table, path: seq<string>, child: string, start: set<seq<string>>, before: set<seq<string>>,
                    after: set<seq<string>>)
    requires NewDirs(table, path, start, before) && NewDirs(table, path + [child], before, after)
    ensures NewDirs(table, path, start, after) && before <= after
  {
    forall d | d in after && d !in start ensures exists n :: n in table && Under(path, n) && d < Split(n) {
      if d !in before {
        var n :| n in table && Under(path + [child], n) && d < Split(n);
        assert path <= path + [child];
      }
    }
  }

  lemma MoreParents(table: Table, path: seq<string>, before: set<seq<string>>, after: set<seq<string>>)
    requires before <= after && ParentsIn(table, path, before)
    ensures ParentsIn(table, path, after)
  {
  }

  lemma ParentsByEach(t: Tree, table: Table, path: seq<string>, children: seq<string>, dirs: set<seq<string>>)
    requires Agrees(t, table) && Walk(t, path).Some? && !Walk(t, path).value.leaf
    requires forall c :: c in children <==> c in Walk(t, path).value.children
    requires forall j :: 0 <= j < |children| ==> ParentsIn(table, path + [children[j]], dirs)
    ensures ParentsIn(table, path, dirs)
  {
    forall n | n in table && Under(path, n) ensures Parent(n) in dirs {
      UnderDirectory(t, table, path, n);
      var child :| child in Walk(t, path).value.children && Under(path + [child], n);
      var j :| 0 <= j < |children| && children[j] == child;
    }
  }

  /** For what is not a directory, restoring the name and restoring the path are one. */
  lemma FileOrNothing(t: Tree, table: Table, disk: string -> DiskFault, name: string)
    requires WellFormed(t) && Agrees(t, table)
    requires Walk(t, Segments(name)).Some? ==> Walk(t, Segments(name)).value.leaf
    ensures Walk(t, Segments(name)).Some? <==> Canonical(name) in table
    ensures Canonical(name) in table ==>
              && Under(Segments(name), Canonical(name))
              && (Restorable(table, disk, Segments(name)) <==>
                  table[Canonical(name)].Some? && disk(Canonical(name)) == NoFault)
              && (table[Canonical(name)].Some? ==>
                    Wanted(table, Segments(name)) == map[Canonical(name) := table[Canonical(name)].value])
  {
    hide WellFormed, Agrees, Canonical, Segments, Restorable, Wanted;
    var path := Segments(name);
    CanonicalIsPath(t, table, name);
    if Canonical(name) in table {
      forall n | n in table ensures Under(path, n) <==> n == Canonical(name) {
        UnderFile(t, table, path, n);
        JoinSplit(n);
        JoinSplit(Canonical(name));
      }
      OneEntry(table, disk, path, Canonical(name));
    }
  }

  lemma CanonicalIsPath(t: Tree, table: Table, name: string)
    requires Agrees(t, table)
    requires Walk(t, Segments(name)).Some? ==> Walk(t, Segments(name)).value.leaf
    ensures Walk(t, Segments(name)).Some? <==> Canonical(name) in table
    ensures Walk(t, Segments(name)).Some? ==> Segments(name) == Split(Canonical(name))
  {
    hide Split, Canonical;
  }

  lemma OneEntry(table: Table, disk: string -> DiskFault, path: seq<string>, name: string)
    requires name in table && forall n :: n in table ==> (Under(path, n) <==> n == name)
    ensures Restorable(table, disk, path) <==> table[name].Some? && disk(name) == NoFault
    ensures table[name].Some? ==> Wanted(table, path) == map[name := table[name].value]
  {
    hide Under;
    assert Under(path, name);
  }
}
