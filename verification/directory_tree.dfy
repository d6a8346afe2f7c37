/**
  A tree of files and folders, the list of entries it is flattened into, and a file system that the tree is rebuilt in
  from such a list.
*/
module DirectoryTree {
  import opened Wrappers
  import opened Bytes

  type Path = seq<string>

  datatype Tree = Leaf(content: seq<Byte>) | Folder(children: seq<Child>)

  datatype Child = Child(name: string, tree: Tree)

  datatype Item = FileAt(content: seq<Byte>) | DirAt

  /** What is at each path below a root, the root itself being []. */
  type FileSystem = map<Path, Item>

  /** One collected entry: a file, or a folder with nothing in it. */
  datatype Entry = Entry(path: Path, item: Item)

  /** The names of a folder's children differ. */
  predicate WellFormed(t: Tree) {
    match t
    case Leaf(_) => true
    case Folder(children) =>
      && (forall i, j | 0 <= i < j < |children| :: children[i].name != children[j].name)
      && (forall c | c in children :: WellFormed(c.tree))
  }

  /** What is on the disk for a tree standing at a path. */
  function Denote(path: Path, t: Tree): FileSystem
    decreases t, 1
  {
    match t
    case Leaf(content) => map[path := FileAt(content)]
    case Folder(children) => DenoteAll(path, children)[path := DirAt]
  }

  function DenoteAll(path: Path, children: seq<Child>): FileSystem
    decreases children, 0
  {
    if children == [] then map[]
    else
      var last := children[|children| - 1];
      DenoteAll(path, children[..|children| - 1]) + Denote(path + [last.name], last.tree)
  }

  /** Depth first: every file, and every folder other than the root that has no children. */
  function Collected(path: Path, t: Tree): seq<Entry>
    decreases t, 1
  {
    match t
    case Leaf(content) => [Entry(path, FileAt(content))]
    case Folder(children) =>
      if children == [] && path != [] then [Entry(path, DirAt)] else CollectedAll(path, children)
  }

  function CollectedAll(path: Path, children: seq<Child>): seq<Entry>
    decreases children, 0
  {
    if children == [] then []
    else
      var last := children[|children| - 1];
      CollectedAll(path, children[..|children| - 1]) + Collected(path + [last.name], last.tree)
  }

  method CollectRecursive(path: Path, t: Tree, before: seq<Entry>) returns (entries: seq<Entry>)
    requires t.Folder?
    ensures entries == before + Collected(path, t)
    decreases t
  {
    entries := before;
    for i := 0 to |t.children|
      invariant entries == before + CollectedAll(path, t.children[..i])
    {
      assert t.children[..i + 1][..i] == t.children[..i];
      var child := t.children[i];
      var at := path + [child.name];
      match child.tree {
        case Folder(_) => entries := CollectRecursive(at, child.tree, entries);
        case Leaf(content) => entries := entries + [Entry(at, FileAt(content))];
      }
    }
    assert t.children[..|t.children|] == t.children;
    if t.children == [] && path != [] {
      entries := entries + [Entry(path, DirAt)];
    }
  }

  // ----- what a list of entries stands for -----

  /** A file system that holds the entries, the folders on the way to them, and nothing else. */
  ghost predicate Holds(fs: FileSystem, entries: seq<Entry>) {
    && (forall p :: p in fs <==> p == [] || OnTheWay(p, entries))
    && HasItems(fs, entries)
    && OnlyListedFiles(fs, entries)
  }

  ghost predicate HasItems(fs: FileSystem, entries: seq<Entry>) {
    forall i | 0 <= i < |entries| :: entries[i].path in fs && fs[entries[i].path] == entries[i].item
  }

  ghost predicate OnlyListedFiles(fs: FileSystem, entries: seq<Entry>) {
    forall p | p in fs :: fs[p].DirAt? || Listed(p, entries)
  }

  ghost predicate OnTheWay(p: Path, entries: seq<Entry>) {
    exists i :: 0 <= i < |entries| && p <= entries[i].path
  }

  ghost predicate Listed(p: Path, entries: seq<Entry>) {
    exists i :: 0 <= i < |entries| && p == entries[i].path
  }

  /** Each path at most once, and nothing below a listed path. */
  ghost predicate Compatible(entries: seq<Entry>) {
    forall i, j | 0 <= i < |entries| && 0 <= j < |entries| && i != j :: !(entries[i].path <= entries[j].path)
  }

  lemma HoldsIsUnique(a: FileSystem, b: FileSystem, entries: seq<Entry>)
    requires Holds(a, entries) && Holds(b, entries)
    ensures a == b
  {
    forall p | p in a ensures p in b && a[p] == b[p] {
      if Listed(p, entries) {
        var i :| 0 <= i < |entries| && p == entries[i].path;
      }
    }
  }

  /** The order of the entries does not matter. */
  lemma {:induction false} HoldsAnyOrder(fs: FileSystem, entries: seq<Entry>, other: seq<Entry>)
    requires Holds(fs, entries)
    requires forall e :: e in entries <==> e in other
    ensures Holds(fs, other)
  {
    forall p ensures OnTheWay(p, entries) <==> OnTheWay(p, other) {
      SameWay(p, entries, other);
      SameWay(p, other, entries);
    }
    forall p ensures Listed(p, entries) ==> Listed(p, other) {
      if Listed(p, entries) {
        var i :| 0 <= i < |entries| && p == entries[i].path;
        assert entries[i] in other;
        var j :| 0 <= j < |other| && other[j] == entries[i];
      }
    }
    forall j | 0 <= j < |other| ensures other[j].path in fs && fs[other[j].path] == other[j].item {
      assert other[j] in entries;
      var i :| 0 <= i < |entries| && entries[i] == other[j];
    }
  }

  lemma SameWay(p: Path, entries: seq<Entry>, other: seq<Entry>)
    requires forall e | e in entries :: e in other
    ensures OnTheWay(p, entries) ==> OnTheWay(p, other)
  {
    if OnTheWay(p, entries) {
      var i :| 0 <= i < |entries| && p <= entries[i].path;
      assert entries[i] in other;
      var j :| 0 <= j < |other| && other[j] == entries[i];
    }
  }

  // ----- rebuilding -----

  datatype IoError = NotADirectory | IsADirectory

  function Prefixes(p: Path): set<Path> {
    set i | 0 <= i <= |p| :: p[..i]
  }

  predicate Blocked(fs: FileSystem, p: Path) {
    exists q :: q in Prefixes(p) && q in fs && fs[q].FileAt?
  }

  /** `create_dir_all`: every folder on the way, unless a file is in the way. */
  function MakeDirs(fs: FileSystem, p: Path): Result<FileSystem, IoError> {
    if Blocked(fs, p) then Failure(NotADirectory)
    else Success(fs + (map q | q in Prefixes(p) :: DirAt))
  }

  /** A file is created after the folders it lies in. */
  function Install(fs: FileSystem, e: Entry): Result<FileSystem, IoError>
    requires e.path != []
  {
    if e.item.DirAt? then MakeDirs(fs, e.path)
    else
      var parent := MakeDirs(fs, e.path[..|e.path| - 1]);
      if parent.Failure? then parent
      else if e.path in fs && fs[e.path].DirAt? then Failure(IsADirectory)
      else Success(parent.value[e.path := e.item])
  }

  function InstallAll(fs: FileSystem, entries: seq<Entry>): Result<FileSystem, IoError>
    requires forall i | 0 <= i < |entries| :: entries[i].path != []
  {
    if entries == [] then Success(fs)
    else
      var before := InstallAll(fs, entries[..|entries| - 1]);
      if before.Failure? then before else Install(before.value, entries[|entries| - 1])
  }

  /** A file stands where a folder would have to be. */
  ghost predicate InTheWay(fs: FileSystem, path: Path, k: nat) {
    k <= |path| && path[..k] in fs && fs[path[..k]].FileAt?
  }

  /**
    Installing an entry fails exactly when a file is in the way of one of the folders it needs, or a folder in the way
    of the file. Otherwise the entry is there, in folders, and everything else is as it was.
  */
  lemma {:induction false} WhatInstallingDoes(fs: FileSystem, e: Entry, p: Path)
    requires e.path != []
    ensures var folders := if e.item.DirAt? then |e.path| else |e.path| - 1;
            var blocked := exists k: nat :: k <= folders && InTheWay(fs, e.path, k);
            var taken := e.item.FileAt? && e.path in fs && fs[e.path].DirAt?;
            && (Install(fs, e).Failure? <==> blocked || taken)
            && (Install(fs, e).Failure? ==>
                  Install(fs, e).error == if blocked then NotADirectory else IsADirectory)
    ensures Install(fs, e).Success? ==>
              var after := Install(fs, e).value;
              && (p in after <==> p in fs || p <= e.path)
              && (p in after ==> after[p] == if p == e.path then e.item else if p <= e.path then DirAt else fs[p])
  {
    var folders := if e.item.DirAt? then |e.path| else |e.path| - 1;
    var way := e.path[..folders];
    if Blocked(fs, way) {
      var q :| q in Prefixes(way) && q in fs && fs[q].FileAt?;
      var k :| 0 <= k <= |way| && q == way[..k];
      assert e.path[..k] == q;
      assert InTheWay(fs, e.path, k);
    }
    if k: nat :| k <= folders && InTheWay(fs, e.path, k) {
      assert way[..k] == e.path[..k];
      assert way[..k] in Prefixes(way);
    }
    assert e.item.DirAt? ==> way == e.path;
    PrefixesOf(way, p);
    assert p <= way ==> p <= e.path;
    assert p <= e.path && p != e.path ==> p <= e.path[..|e.path| - 1];
  }

  const EMPTY_ROOT: FileSystem := map[[] := DirAt]

  lemma LastIsApart(entries: seq<Entry>, e: Entry)
    requires Compatible(entries + [e])
    ensures forall i | 0 <= i < |entries| :: !(e.path <= entries[i].path) && !(entries[i].path <= e.path)
  {
    var all := entries + [e];
    forall i | 0 <= i < |entries| ensures !(e.path <= entries[i].path) && !(entries[i].path <= e.path) {
      assert all[i] == entries[i] && all[|entries|] == e;
    }
  }

  lemma NothingInTheWay(fs: FileSystem, entries: seq<Entry>, e: Entry)
    requires Holds(fs, entries) && Compatible(entries + [e])
    ensures e.path !in fs || e.path == []
    ensures !Blocked(fs, e.path)
  {
    LastIsApart(entries, e);
    forall q | q in Prefixes(e.path) && q in fs ensures fs[q].DirAt? {
      PrefixesOf(e.path, q);
    }
  }

  lemma PrefixesOf(p: Path, q: Path)
    ensures q in Prefixes(p) <==> q <= p
  {
    if q <= p {
      assert q == p[..|q|];
    }
  }

  /** The outcome of an installation with nothing in its way. */
  ghost function Installed(fs: FileSystem, e: Entry): FileSystem {
    (fs + (map q | q in Prefixes(e.path) :: DirAt))[e.path := e.item]
  }

  lemma InstallSucceeds(fs: FileSystem, e: Entry)
    requires e.path != [] && e.path !in fs && !Blocked(fs, e.path)
    ensures Install(fs, e) == Success(Installed(fs, e))
  {
    var parent := e.path[..|e.path| - 1];
    forall q ensures q in Prefixes(parent) <==> q in Prefixes(e.path) && q != e.path {
      PrefixesOf(parent, q);
      PrefixesOf(e.path, q);
    }
    assert !Blocked(fs, parent);
    if e.item.FileAt? {
      assert (fs + (map q | q in Prefixes(parent) :: DirAt))[e.path := e.item] == Installed(fs, e);
    } else {
      PrefixesOf(e.path, e.path);
      assert Installed(fs, e) == fs + (map q | q in Prefixes(e.path) :: DirAt);
    }
  }

  lemma InstallExtends(fs: FileSystem, entries: seq<Entry>, e: Entry)
    requires Holds(fs, entries) && Compatible(entries + [e]) && e.path != []
    ensures Install(fs, e).Success? && Holds(Install(fs, e).value, entries + [e])
  {
    NothingInTheWay(fs, entries, e);
    InstallSucceeds(fs, e);
    var after, all := Installed(fs, e), entries + [e];
    forall p ensures p in after <==> p == [] || OnTheWay(p, all) {
      PrefixesOf(e.path, p);
      WayExtends(p, entries, e);
    }
    PrefixesOf(e.path, e.path);
    InstalledItems(fs, entries, e, after);
  }

  lemma WayExtends(p: Path, entries: seq<Entry>, e: Entry)
    ensures OnTheWay(p, entries + [e]) <==> OnTheWay(p, entries) || p <= e.path
    ensures Listed(p, entries + [e]) <==> Listed(p, entries) || p == e.path
  {
    var all := entries + [e];
    assert all[|entries|] == e;
    assert forall i | 0 <= i < |entries| :: all[i] == entries[i];
  }

  lemma InstalledItems(fs: FileSystem, entries: seq<Entry>, e: Entry, after: FileSystem)
    requires Holds(fs, entries) && Compatible(entries + [e]) && e.path in after && after[e.path] == e.item
    requires forall p | p in after && p != e.path ::
      if p in fs && p !in Prefixes(e.path) then after[p] == fs[p] else after[p].DirAt?
    requires forall p | p in fs :: p in after
    ensures forall i | 0 <= i < |entries + [e]| ::
              var x := (entries + [e])[i]; x.path in after && after[x.path] == x.item
    ensures forall p | p in after :: after[p].DirAt? || Listed(p, entries + [e])
  {
    var all := entries + [e];
    forall i | 0 <= i < |all| ensures all[i].path in after && after[all[i].path] == all[i].item {
      if i < |entries| {
        assert all[i] == entries[i] && all[|entries|] == e;
        PrefixesOf(e.path, all[i].path);
      }
    }
    forall p | p in after ensures after[p].DirAt? || Listed(p, all) {
      WayExtends(p, entries, e);
    }
  }

  lemma {:induction false} InstallAllHolds(entries: seq<Entry>)
    requires Compatible(entries) && forall i | 0 <= i < |entries| :: entries[i].path != []
    ensures InstallAll(EMPTY_ROOT, entries).Success? && Holds(InstallAll(EMPTY_ROOT, entries).value, entries)
  {
    if entries != [] {
      var n := |entries| - 1;
      InstallAllHolds(entries[..n]);
      assert entries[..n] + [entries[n]] == entries;
      InstallExtends(InstallAll(EMPTY_ROOT, entries[..n]).value, entries[..n], entries[n]);
    }
  }

  // ----- a tree holds what is collected from it -----

  /** `Holds`, for the part of a file system that stands at one path. */
  ghost predicate HoldsAt(fs: FileSystem, at: Path, entries: seq<Entry>) {
    && (forall p :: p in fs <==> at <= p && (p == at || OnTheWay(p, entries)))
    && HasItems(fs, entries)
    && OnlyListedFiles(fs, entries)
  }

  /** `Holds`, for what stands below one path. */
  ghost predicate HoldsBelow(fs: FileSystem, at: Path, entries: seq<Entry>) {
    && (forall p :: p in fs <==> at < p && OnTheWay(p, entries))
    && HasItems(fs, entries)
    && OnlyListedFiles(fs, entries)
  }

  function Names(children: seq<Child>): set<string> {
    set c | c in children :: c.name
  }

  /** The entries all lie below a path, under one of some names. */
  ghost predicate Under(entries: seq<Entry>, at: Path, names: set<string>) {
    forall i | 0 <= i < |entries| :: at < entries[i].path && entries[i].path[|at|] in names
  }

  lemma {:induction false} FolderHolds(below: FileSystem, at: Path, entries: seq<Entry>, names: set<string>)
    requires HoldsBelow(below, at, entries) && Under(entries, at, names)
    ensures HoldsAt(below[at := DirAt], at, entries)
  {
    FolderKeys(below, at, entries);
    FolderItems(below, at, entries, names);
  }

  lemma FolderItems(below: FileSystem, at: Path, entries: seq<Entry>, names: set<string>)
    requires HasItems(below, entries) && OnlyListedFiles(below, entries) && Under(entries, at, names)
    ensures HasItems(below[at := DirAt], entries) && OnlyListedFiles(below[at := DirAt], entries)
  {
    forall i | 0 <= i < |entries| ensures entries[i].path != at {
      assert at < entries[i].path;
    }
  }

  lemma FolderKeys(below: FileSystem, at: Path, entries: seq<Entry>)
    requires forall p :: p in below <==> at < p && OnTheWay(p, entries)
    ensures forall p :: p in below[at := DirAt] <==> at <= p && (p == at || OnTheWay(p, entries))
  {
    forall p ensures p in below[at := DirAt] <==> at <= p && (p == at || OnTheWay(p, entries)) {
      assert at <= p && p != at <==> at < p;
    }
  }

  lemma EmptyFolderHolds(at: Path)
    ensures HoldsAt(map[at := DirAt], at, if at == [] then [] else [Entry(at, DirAt)])
  {
    assert [Entry(at, DirAt)][0].path == at;
  }

  lemma LeafHolds(at: Path, content: seq<Byte>)
    ensures HoldsAt(map[at := FileAt(content)], at, [Entry(at, FileAt(content))])
  {
    assert [Entry(at, FileAt(content))][0].path == at;
  }

  lemma {:induction false} TreeHolds(at: Path, t: Tree)
    requires WellFormed(t) && (t.Folder? || at != [])
    ensures HoldsAt(Denote(at, t), at, Collected(at, t))
    ensures Compatible(Collected(at, t))
    ensures forall i | 0 <= i < |Collected(at, t)| :: at <= Collected(at, t)[i].path != []
    ensures at != [] ==> Collected(at, t) != []
    decreases t, 1
  {
    if t.Leaf? {
      LeafHolds(at, t.content);
    } else if t.children == [] {
      EmptyFolderHolds(at);
      assert Denote(at, t) == map[at := DirAt];
    } else {
      ChildrenHold(at, t.children);
      FolderHolds(DenoteAll(at, t.children), at, CollectedAll(at, t.children), Names(t.children));
    }
  }

  lemma {:induction false} ChildrenHold(at: Path, children: seq<Child>)
    requires forall i, j | 0 <= i < j < |children| :: children[i].name != children[j].name
    requires forall c | c in children :: WellFormed(c.tree)
    ensures HoldsBelow(DenoteAll(at, children), at, CollectedAll(at, children))
    ensures Compatible(CollectedAll(at, children))
    ensures Under(CollectedAll(at, children), at, Names(children))
    ensures children != [] ==> CollectedAll(at, children) != []
    decreases children, 0
  {
    if children != [] {
      var n := |children| - 1;
      var first, last := children[..n], children[n];
      ChildrenHold(at, first);
      TreeHolds(at + [last.name], last.tree);
      assert last.name !in Names(first);
      assert Names(children) == Names(first) + {last.name} by {
        assert children == first + [last];
      }
      var f, g := DenoteAll(at, first), Denote(at + [last.name], last.tree);
      var a, b := CollectedAll(at, first), Collected(at + [last.name], last.tree);
      UnderOneName(b, at, last.name);
      SiblingsAreCompatible(a, b, at, Names(first), last.name);
      SiblingsHold(f, g, a, b, at, Names(first), last.name);
    }
  }

  lemma UnderOneName(entries: seq<Entry>, at: Path, name: string)
    requires forall i | 0 <= i < |entries| :: at + [name] <= entries[i].path
    ensures Under(entries, at, {name})
  {
    forall i | 0 <= i < |entries| ensures at < entries[i].path && entries[i].path[|at|] == name {
      assert entries[i].path[..|at| + 1] == at + [name];
      assert entries[i].path[..|at|] == at;
    }
  }

  lemma SiblingsAreCompatible(a: seq<Entry>, b: seq<Entry>, at: Path, names: set<string>, name: string)
    requires Compatible(a) && Compatible(b) && Under(a, at, names) && Under(b, at, {name}) && name !in names
    ensures Compatible(a + b)
  {
    var all := a + b;
    forall i, j | 0 <= i < |all| && 0 <= j < |all| && i != j ensures !(all[i].path <= all[j].path) {
      if i < |a| <= j {
        assert all[i] == a[i] && all[j] == b[j - |a|];
      } else if j < |a| <= i {
        assert all[j] == a[j] && all[i] == b[i - |a|];
      } else if i < |a| {
        assert all[j] == a[j] && all[i] == a[i];
      } else {
        assert all[j] == b[j - |a|] && all[i] == b[i - |a|];
      }
    }
  }

  lemma WayJoins(p: Path, a: seq<Entry>, b: seq<Entry>)
    ensures OnTheWay(p, a + b) <==> OnTheWay(p, a) || OnTheWay(p, b)
    ensures Listed(p, a + b) <==> Listed(p, a) || Listed(p, b)
  {
    var all := a + b;
    assert forall i | 0 <= i < |a| :: all[i] == a[i];
    assert forall i | 0 <= i < |b| :: all[|a| + i] == b[i];
    assert forall i | |a| <= i < |all| :: all[i] == b[i - |a|];
  }

  /** Whatever lies on the way to an entry under a name, and below the parent, lies at that name or below it. */
  lemma BelowTheName(p: Path, b: seq<Entry>, at: Path, name: string)
    requires Under(b, at, {name}) && b != [] && at < p
    ensures OnTheWay(p, b) <==> at + [name] <= p && (p == at + [name] || OnTheWay(p, b))
  {
    if OnTheWay(p, b) {
      var i :| 0 <= i < |b| && p <= b[i].path;
      assert p[|at|] == b[i].path[|at|];
    }
    assert at + [name] <= b[0].path;
  }

  lemma SiblingKeys(f: FileSystem, g: FileSystem, a: seq<Entry>, b: seq<Entry>, at: Path, name: string)
    requires HoldsBelow(f, at, a) && HoldsAt(g, at + [name], b) && b != [] && Under(b, at, {name})
    ensures forall p :: p in f + g <==> at < p && OnTheWay(p, a + b)
  {
    forall p ensures p in f + g <==> at < p && OnTheWay(p, a + b) {
      WayJoins(p, a, b);
      if at < p { BelowTheName(p, b, at, name); }
    }
  }

  lemma SiblingItems(f: FileSystem, g: FileSystem, a: seq<Entry>, b: seq<Entry>, at: Path, names: set<string>,
                     name: string)
    requires HoldsBelow(f, at, a) && HoldsAt(g, at + [name], b)
    requires Under(a, at, names) && name !in names
    ensures forall i | 0 <= i < |a + b| :: (a + b)[i].path in f + g && (f + g)[(a + b)[i].path] == (a + b)[i].item
  {
    forall i | 0 <= i < |a| ensures a[i].path !in g {
      assert a[i].path[..|at| + 1][|at|] == a[i].path[|at|] != (at + [name])[|at|];
    }
  }

  lemma SiblingsListed(f: FileSystem, g: FileSystem, a: seq<Entry>, b: seq<Entry>, p: Path)
    requires OnlyListedFiles(f, a) && OnlyListedFiles(g, b) && p in f + g
    ensures (f + g)[p].DirAt? || Listed(p, a + b)
  {
    WayJoins(p, a, b);
  }

  lemma {:induction false} SiblingsHold(f: FileSystem, g: FileSystem, a: seq<Entry>, b: seq<Entry>, at: Path,
                                        names: set<string>,
                     name: string)
    requires HoldsBelow(f, at, a) && HoldsAt(g, at + [name], b) && b != []
    requires Under(a, at, names) && Under(b, at, {name}) && name !in names
    ensures HoldsBelow(f + g, at, a + b)
  {
    SiblingKeys(f, g, a, b, at, name);
    SiblingItems(f, g, a, b, at, names, name);
    forall p | p in f + g ensures (f + g)[p].DirAt? || Listed(p, a + b) {
      SiblingsListed(f, g, a, b, p);
    }
  }

  /** Rebuilding a tree from its entries, in any order, gives the tree back. */
  lemma RebuildRestores(t: Tree, entries: seq<Entry>)
    requires WellFormed(t) && t.Folder?
    requires forall e :: e in entries <==> e in Collected([], t)
    requires forall i, j | 0 <= i < j < |entries| :: entries[i] != entries[j]
    ensures forall i | 0 <= i < |entries| :: entries[i].path != []
    ensures InstallAll(EMPTY_ROOT, entries) == Success(Denote([], t))
  {
    TreeHolds([], t);
    var collected := Collected([], t);
    forall i | 0 <= i < |entries| ensures entries[i].path != [] {
      assert entries[i] in collected;
    }
    StillCompatible(collected, entries);
    InstallAllHolds(entries);
    HoldsAnyOrder(Denote([], t), collected, entries);
    HoldsIsUnique(InstallAll(EMPTY_ROOT, entries).value, Denote([], t), entries);
  }

  lemma StillCompatible(collected: seq<Entry>, entries: seq<Entry>)
    requires Compatible(collected) && forall e | e in entries :: e in collected
    requires forall i, j | 0 <= i < j < |entries| :: entries[i] != entries[j]
    ensures Compatible(entries)
  {
    forall i, j | 0 <= i < |entries| && 0 <= j < |entries| && i != j ensures !(entries[i].path <= entries[j].path) {
      assert entries[i] in collected && entries[j] in collected;
      var x :| 0 <= x < |collected| && collected[x] == entries[i];
      var y :| 0 <= y < |collected| && collected[y] == entries[j];
    }
  }
}
