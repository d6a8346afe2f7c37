/**
  A directory transfer end to end: the manifest the server makes of a tree, the names in it, and the tree the receiver
  builds from the manifest and the contents it asks for by name.
*/
module DirectoryManifest {
  import opened Wrappers
  import opened Bytes
  import opened Paths
  import opened DirectoryEntries
  import opened DirectoryTree

  // ----- names on the wire -----

  /** A name a file can have: what a path is split at, and the two names with a meaning of their own, are excluded. */
  predicate ValidName(name: string) {
    name != "" && '/' !in name && name != "." && name != ".."
  }

  function JoinPath(path: Path): string {
    if path == [] then ""
    else if |path| == 1 then path[0]
    else path[0] + "/" + JoinPath(path[1..])
  }

  function WithoutBackslashes(s: string): (r: string)
    ensures |r| == |s|
    ensures forall i | 0 <= i < |s| :: r[i] == if s[i] == '\\' then '/' else s[i]
  {
    seq(|s|, i requires 0 <= i < |s| => if s[i] == '\\' then '/' else s[i])
  }

  function EntryName(path: Path): string {
    WithoutBackslashes(JoinPath(path))
  }

  datatype PathError = Absolute | ParentComponent | EmptyPath

  function ValidatedPath(s: string): Result<Path, PathError> {
    if s != "" && s[0] == '/' then Failure(Absolute)
    else if ".." in Segments(s) then Failure(ParentComponent)
    else if Normal(Segments(s)) == [] then Failure(EmptyPath)
    else Success(Normal(Segments(s)))
  }

  method ValidatedCollectionRelativePath(s: string) returns (r: Result<Path, PathError>)
    ensures r == ValidatedPath(s)
  {
    if s != "" && s[0] == '/' {
      return Failure(Absolute);
    }
    var components := Segments(s);
    var clean: Path := [];
    for i := 0 to |components|
      invariant clean == Normal(components[..i])
      invariant ".." !in components[..i]
    {
      assert components[..i + 1] == components[..i] + [components[i]];
      if components[i] == ".." {
        return Failure(ParentComponent);
      }
      if !Skipped(components[i]) {
        clean := clean + [components[i]];
      }
    }
    assert components[..|components|] == components;
    r := if clean == [] then Failure(EmptyPath) else Success(clean);
  }

  predicate ValidPath(path: Path) {
    path != [] && forall i | 0 <= i < |path| :: ValidName(path[i])
  }

  lemma {:induction false} SegmentsOfJoin(path: Path)
    requires ValidPath(path)
    ensures Segments(JoinPath(path)) == path
    ensures JoinPath(path) != "" && JoinPath(path)[0] != '/'
  {
    if |path| == 1 {
      SegmentsOfPrefix(path[0], "");
      assert path == [path[0]];
    } else {
      SegmentsOfJoin(path[1..]);
      SegmentsOfPrefix(path[0], JoinPath(path[1..]));
    }
  }

  lemma {:induction false} NormalKeepsNames(path: Path)
    requires forall i | 0 <= i < |path| :: !Skipped(path[i])
    ensures |Normal(path)| == |path| && forall i | 0 <= i < |path| :: Normal(path)[i] == path[i]
  {
    if path != [] {
      NormalKeepsNames(path[..|path| - 1]);
    }
  }

  // ----- which names are accepted -----

  lemma {:induction false} SegmentsAreApart(s: string)
    ensures forall segment | segment in Segments(s) :: '/' !in segment
  {
    if s != "" {
      SegmentsAreApart(s[1..]);
      var rest := Segments(s[1..]);
      assert rest[0] in rest && forall segment | segment in rest[1..] :: segment in rest;
    }
  }

  lemma {:induction false} NormalNames(segments: seq<string>)
    ensures forall name :: name in Normal(segments) <==> name in segments && name != "" && name != "."
  {
    if segments != [] {
      NormalNames(segments[..|segments| - 1]);
      assert segments == segments[..|segments| - 1] + [segments[|segments| - 1]];
    }
  }

  /** Something between the slashes of `s` is a name. */
  ghost predicate NamesSomething(s: string) {
    exists segment :: segment in Segments(s) && segment != "" && segment != "."
  }

  /**
    A name is refused exactly when it is absolute, has a parent component, or names nothing; and what is accepted is one
    or more names, none of which leads out of the folder it is taken in.
  */
  lemma {:induction false} WhenAPathIsAccepted(s: string)
    ensures ValidatedPath(s).Success? <==>
            !(s != "" && s[0] == '/') && ".." !in Segments(s) && NamesSomething(s)
    ensures ValidatedPath(s).Success? ==> ValidPath(ValidatedPath(s).value)
    ensures ValidatedPath(s).Success? ==>
              forall name :: name in ValidatedPath(s).value <==> name in Segments(s) && name != "" && name != "."
  {
    SegmentsAreApart(s);
    NormalNames(Segments(s));
    var path := Normal(Segments(s));
    if ValidatedPath(s).Success? {
      forall i | 0 <= i < |path| ensures ValidName(path[i]) {
        assert path[i] in path;
      }
    }
    if path != [] {
      assert path[0] in path;
    }
  }

  // ----- backslashes -----

  predicate Clean(path: Path) {
    forall i | 0 <= i < |path| :: '\\' !in path[i]
  }

  lemma {:induction false} CleanJoin(path: Path)
    requires Clean(path)
    ensures '\\' !in JoinPath(path)
  {
    if |path| > 1 {
      assert path[0] in path;
      assert forall name | name in path[1..] :: name in path;
      CleanJoin(path[1..]);
    } else if |path| == 1 {
      assert path[0] in path;
    }
  }

  /** A name made from a path without backslashes is read back as that path. */
  lemma NameRoundTrip(path: Path)
    requires ValidPath(path) && Clean(path)
    ensures ValidatedPath(EntryName(path)) == Success(path)
  {
    CleanJoin(path);
    assert EntryName(path) == JoinPath(path);
    SegmentsOfJoin(path);
    forall i | 0 <= i < |path| ensures !Skipped(path[i]) && path[i] != ".." {
      assert ValidName(path[i]);
    }
    NormalKeepsNames(path);
    assert Normal(path) == path;
  }

  lemma {:induction false} CleanSegments(s: string)
    requires '\\' !in s
    ensures Clean(Segments(s))
  {
    if s != "" {
      CleanSegments(s[1..]);
      assert Segments(s[1..])[0] in Segments(s[1..]);
    }
  }

  lemma {:induction false} CleanNormal(segments: seq<string>)
    requires Clean(segments)
    ensures Clean(Normal(segments))
  {
    if segments != [] {
      CleanNormal(segments[..|segments| - 1]);
    }
  }

  /** No path read from a manifest has a backslash in it. */
  lemma ValidatedIsClean(path: Path)
    requires ValidatedPath(EntryName(path)).Success?
    ensures Clean(ValidatedPath(EntryName(path)).value) && ValidatedPath(EntryName(path)).value != []
  {
    CleanSegments(EntryName(path));
    CleanNormal(Segments(EntryName(path)));
  }

  // ----- the manifest -----

  function Announced(e: Entry): PreparedEntry {
    match e.item
    case FileAt(content) => PreparedEntry(EntryName(e.path), FileEntry, |content|)
    case DirAt => PreparedEntry(EntryName(e.path), EmptyDirectory, 0)
  }

  function Manifest(entries: seq<Entry>): (r: seq<PreparedEntry>)
    ensures |r| == |entries|
    ensures forall i | 0 <= i < |r| :: r[i] == Announced(entries[i])
  {
    seq(|entries|, i requires 0 <= i < |entries| => Announced(entries[i]))
  }

  datatype TransferError = NoSuchEntry | BadPath(error: PathError) | Unreadable | Io(ioError: IoError)

  /** The first entry of that name, if it is a file. */
  function LookedUp(manifest: seq<PreparedEntry>, name: string): Result<PreparedEntry, TransferError> {
    if manifest == [] then Failure(NoSuchEntry)
    else if manifest[0].relativePath != name then LookedUp(manifest[1..], name)
    else if manifest[0].kind == FileEntry then Success(manifest[0])
    else Failure(NoSuchEntry)
  }

  /** Of the entries of one name the first decides: it is served if it is a file. */
  lemma {:induction false} WhatIsLookedUp(manifest: seq<PreparedEntry>, name: string, i: nat)
    requires i <= |manifest| && forall j | 0 <= j < i :: manifest[j].relativePath != name
    requires i < |manifest| ==> manifest[i].relativePath == name
    ensures LookedUp(manifest, name) ==
              if i < |manifest| && manifest[i].kind == FileEntry then Success(manifest[i]) else Failure(NoSuchEntry)
  {
    if i > 0 {
      WhatIsLookedUp(manifest[1..], name, i - 1);
    }
  }

  method LookupDirectoryEntry(manifest: seq<PreparedEntry>, name: string)
    returns (r: Result<(PreparedEntry, Path), TransferError>)
    ensures match LookedUp(manifest, name)
            case Failure(error) => r == Failure(error)
            case Success(entry) =>
              match ValidatedPath(entry.relativePath)
              case Failure(error) => r == Failure(BadPath(error))
              case Success(path) => r == Success((entry, path))
  {
    for i := 0 to |manifest|
      invariant LookedUp(manifest, name) == LookedUp(manifest[i..], name)
    {
      assert manifest[i..][1..] == manifest[i + 1..];
      if manifest[i].relativePath == name {
        if manifest[i].kind != FileEntry {
          return Failure(NoSuchEntry);
        }
        var path := ValidatedCollectionRelativePath(manifest[i].relativePath);
        return if path.Failure? then Failure(BadPath(path.error)) else Success((manifest[i], path.value));
      }
    }
    r := Failure(NoSuchEntry);
  }

  /** What the server sends for a name: as many bytes as the manifest says, from the path the name stands for. */
  function Served(disk: FileSystem, manifest: seq<PreparedEntry>, name: string): Result<seq<Byte>, TransferError> {
    match LookedUp(manifest, name)
    case Failure(error) => Failure(error)
    case Success(entry) =>
      match ValidatedPath(entry.relativePath)
      case Failure(error) => Failure(BadPath(error))
      case Success(path) =>
        if path !in disk || disk[path].DirAt? || |disk[path].content| < entry.size then Failure(Unreadable)
        else Success(disk[path].content[..entry.size])
  }

  /** What the receiver makes of one manifest entry. */
  function Received(disk: FileSystem, manifest: seq<PreparedEntry>, e: PreparedEntry): Result<Entry, TransferError> {
    match ValidatedPath(e.relativePath)
    case Failure(error) => Failure(BadPath(error))
    case Success(path) =>
      if e.kind == EmptyDirectory then Success(Entry(path, DirAt))
      else match Served(disk, manifest, e.relativePath)
        case Failure(error) => Failure(error)
        case Success(content) =>
          if |content| == e.size then Success(Entry(path, FileAt(content))) else Failure(Unreadable)
  }

  /** The receiver works through the entries in the order in which they get done. */
  function Rebuilt(disk: FileSystem, manifest: seq<PreparedEntry>, done: seq<PreparedEntry>)
    : (r: Result<FileSystem, TransferError>)
  {
    if done == [] then Success(EMPTY_ROOT)
    else
      var before := Rebuilt(disk, manifest, done[..|done| - 1]);
      if before.Failure? then before
      else match Received(disk, manifest, done[|done| - 1])
        case Failure(error) => Failure(error)
        case Success(entry) =>
          if entry.path == [] then Failure(BadPath(EmptyPath))
          else match Install(before.value, entry)
            case Failure(error) => Failure(Io(error))
            case Success(fs) => Success(fs)
  }

  /** What a receiver takes for a file has the size that was announced, also when the other side is at fault. */
  lemma ReceivedAsAnnounced(disk: FileSystem, manifest: seq<PreparedEntry>, e: PreparedEntry)
    requires Received(disk, manifest, e).Success?
    ensures var item := Received(disk, manifest, e).value.item;
            (item.DirAt? <==> e.kind == EmptyDirectory) && (item.FileAt? ==> |item.content| == e.size)
  {
  }

  /** Files are announced with their sizes, and folders with none. */
  lemma AnnouncedSizes(entries: seq<Entry>, i: nat)
    requires i < |entries|
    ensures var e := Manifest(entries)[i];
            && (e.kind == FileEntry <==> entries[i].item.FileAt?)
            && e.size == if entries[i].item.FileAt? then |entries[i].item.content| else 0
  {
  }

  // ----- nothing is written outside -----

  /** At every path but the root itself there is a name in every component. */
  ghost predicate Inside(fs: FileSystem) {
    forall p | p in fs && p != [] :: ValidPath(p)
  }

  lemma PrefixIsValid(p: Path, k: nat)
    requires ValidPath(p) && 0 < k <= |p|
    ensures ValidPath(p[..k])
  {
  }

  lemma {:induction false} InstallStaysInside(fs: FileSystem, e: Entry)
    requires Inside(fs) && ValidPath(e.path) && Install(fs, e).Success?
    ensures Inside(Install(fs, e).value)
  {
    var after, parent := Install(fs, e).value, e.path[..|e.path| - 1];
    forall p | p in after && p != [] && p !in fs ensures ValidPath(p) {
      PrefixesOf(parent, p);
      PrefixesOf(e.path, p);
      assert p <= e.path;
      PrefixIsValid(e.path, |p|);
    }
  }

  /** Whatever a server announces and serves, a receiver that gets through has only written below its own folder. */
  lemma {:induction false} RebuiltStaysInside(disk: FileSystem, manifest: seq<PreparedEntry>, done: seq<PreparedEntry>)
    requires Rebuilt(disk, manifest, done).Success?
    ensures Inside(Rebuilt(disk, manifest, done).value)
  {
    if done != [] {
      var n := |done| - 1;
      RebuiltStaysInside(disk, manifest, done[..n]);
      WhenAPathIsAccepted(done[n].relativePath);
      InstallStaysInside(Rebuilt(disk, manifest, done[..n]).value, Received(disk, manifest, done[n]).value);
    }
  }

  /** And the server only sends what it has below its own. */
  lemma ServedFromInside(disk: FileSystem, manifest: seq<PreparedEntry>, name: string) returns (path: Path)
    requires Served(disk, manifest, name).Success?
    ensures ValidPath(path) && path in disk && disk[path].FileAt?
    ensures Served(disk, manifest, name).value <= disk[path].content
    ensures LookedUp(manifest, name).Success?
    ensures |Served(disk, manifest, name).value| == LookedUp(manifest, name).value.size
  {
    var entry := LookedUp(manifest, name).value;
    WhenAPathIsAccepted(entry.relativePath);
    path := ValidatedPath(entry.relativePath).value;
  }

  // ----- the round trip -----

  /** Every name in the tree is one a file can have. */
  predicate ValidNames(t: Tree) {
    t.Folder? ==> forall c | c in t.children :: ValidName(c.name) && ValidNames(c.tree)
  }

  /** No name in the tree has a backslash in it. */
  predicate CleanNames(t: Tree) {
    t.Folder? ==> forall c | c in t.children :: '\\' !in c.name && CleanNames(c.tree)
  }

  lemma {:induction false} CollectedPaths(at: Path, t: Tree, clean: bool)
    requires ValidNames(t) && forall name | name in at :: ValidName(name)
    requires clean ==> CleanNames(t) && Clean(at)
    ensures forall e | e in Collected(at, t) :: forall name | name in e.path :: ValidName(name)
    ensures clean ==> forall e | e in Collected(at, t) :: Clean(e.path)
    decreases t, 1
  {
    if t.Folder? && !(t.children == [] && at != []) {
      CollectedPathsAll(at, t.children, clean);
    }
  }

  lemma {:induction false} CollectedPathsAll(at: Path, children: seq<Child>, clean: bool)
    requires forall c | c in children :: ValidName(c.name) && ValidNames(c.tree)
    requires forall name | name in at :: ValidName(name)
    requires clean ==> Clean(at) && forall c | c in children :: '\\' !in c.name && CleanNames(c.tree)
    ensures forall e | e in CollectedAll(at, children) :: forall name | name in e.path :: ValidName(name)
    ensures clean ==> forall e | e in CollectedAll(at, children) :: Clean(e.path)
    decreases children, 0
  {
    if children != [] {
      var n := |children| - 1;
      assert children[n] in children;
      CollectedPathsAll(at, children[..n], clean);
      CollectedPaths(at + [children[n].name], children[n].tree, clean);
    }
  }

  /** A name with a backslash is the last on some path of the tree. */
  lemma {:induction false} UncleanPath(at: Path, t: Tree) returns (p: Path)
    requires WellFormed(t) && !CleanNames(t)
    ensures p in Denote(at, t) && at <= p && !Clean(p)
    decreases t
  {
    var i :| 0 <= i < |t.children| && ('\\' in t.children[i].name || !CleanNames(t.children[i].tree));
    var c := t.children[i];
    var below := at + [c.name];
    if '\\' in c.name {
      p := below;
      assert c.name in p;
      RootIsThere(below, c.tree);
    } else {
      p := UncleanPath(below, c.tree);
    }
    ChildIsThere(at, t.children, i, p);
    assert p != at;
  }

  lemma RootIsThere(at: Path, t: Tree)
    ensures at in Denote(at, t)
  {
  }

  lemma {:induction false} ChildIsThere(at: Path, children: seq<Child>, i: nat, p: Path)
    requires i < |children| && p in Denote(at + [children[i].name], children[i].tree)
    ensures p in DenoteAll(at, children)
  {
    if i < |children| - 1 {
      ChildIsThere(at, children[..|children| - 1], i, p);
    }
  }

  /** The same entries, each once, in any order. */
  ghost predicate Reordered(entries: seq<Entry>, original: seq<Entry>) {
    && (forall e :: e in entries <==> e in original)
    && (forall i, j | 0 <= i < j < |entries| :: entries[i] != entries[j])
  }

  ghost predicate Readable(entries: seq<Entry>) {
    forall e | e in entries :: ValidPath(e.path) && Clean(e.path)
  }

  lemma NamesDiffer(a: Path, b: Path)
    requires ValidPath(a) && Clean(a) && ValidPath(b) && Clean(b) && EntryName(a) == EntryName(b)
    ensures a == b
  {
    NameRoundTrip(a);
    NameRoundTrip(b);
  }

  lemma {:induction false} LookupFinds(entries: seq<Entry>, k: nat)
    requires Readable(entries) && Compatible(entries) && k < |entries| && entries[k].item.FileAt?
    ensures LookedUp(Manifest(entries), EntryName(entries[k].path)) == Success(Announced(entries[k]))
  {
    if k > 0 {
      var rest := entries[1..];
      assert Manifest(entries)[1..] == Manifest(rest);
      assert entries[0] in entries && entries[k] in entries;
      assert !(entries[0].path <= entries[k].path);
      if EntryName(entries[0].path) == EntryName(entries[k].path) {
        NamesDiffer(entries[0].path, entries[k].path);
      }
      assert forall x | x in rest :: x in entries;
      assert forall i | 0 <= i < |rest| :: rest[i] == entries[i + 1];
      LookupFinds(rest, k - 1);
    }
  }

  lemma FileIsServed(disk: FileSystem, manifest: seq<PreparedEntry>, e: Entry)
    requires e.item.FileAt? && e.path in disk && disk[e.path] == e.item
    requires ValidatedPath(EntryName(e.path)) == Success(e.path)
    requires LookedUp(manifest, EntryName(e.path)) == Success(Announced(e))
    ensures Served(disk, manifest, EntryName(e.path)) == Success(e.item.content)
  {
    assert e.item.content[..|e.item.content|] == e.item.content;
  }

  lemma {:induction false} ReceivedIsCollected(disk: FileSystem, order: seq<Entry>, e: Entry)
    requires Readable(order) && Compatible(order) && e in order
    requires e.path in disk && disk[e.path] == e.item
    ensures Received(disk, Manifest(order), Announced(e)) == Success(e)
  {
    NameRoundTrip(e.path);
    if e.item.FileAt? {
      var k :| 0 <= k < |order| && order[k] == e;
      LookupFinds(order, k);
      FileIsServed(disk, Manifest(order), e);
    }
  }

  lemma {:induction false} RebuiltIsInstalled(disk: FileSystem, order: seq<Entry>, done: seq<Entry>)
    requires Readable(order) && Compatible(order) && forall e | e in done :: e in order
    requires forall e | e in order :: e.path in disk && disk[e.path] == e.item
    requires forall i | 0 <= i < |done| :: done[i].path != []
    requires InstallAll(EMPTY_ROOT, done).Success?
    ensures Rebuilt(disk, Manifest(order), Manifest(done)) == Success(InstallAll(EMPTY_ROOT, done).value)
  {
    if done != [] {
      var n := |done| - 1;
      assert Manifest(done)[..n] == Manifest(done[..n]);
      assert done[n] in order;
      RebuiltIsInstalled(disk, order, done[..n]);
      ReceivedIsCollected(disk, order, done[n]);
    }
  }

  lemma PrefixIsClean(p: Path, q: Path)
    requires Clean(p) && q <= p
    ensures Clean(q)
  {
    forall name | name in q ensures '\\' !in name {
      var i :| 0 <= i < |q| && q[i] == name;
      assert p[i] in p;
    }
  }

  ghost predicate AllClean(fs: FileSystem) {
    forall p | p in fs :: Clean(p)
  }

  lemma InstallKeepsClean(fs: FileSystem, e: Entry)
    requires AllClean(fs) && Clean(e.path) && e.path != [] && Install(fs, e).Success?
    ensures AllClean(Install(fs, e).value)
  {
    var after := Install(fs, e).value;
    forall p | p in after ensures Clean(p) {
      if p !in fs {
        PrefixesOf(e.path, p);
        PrefixesOf(e.path[..|e.path| - 1], p);
        PrefixIsClean(e.path, p);
      }
    }
  }

  lemma {:induction false} RebuiltIsClean(disk: FileSystem, manifest: seq<PreparedEntry>, done: seq<Entry>)
    requires Rebuilt(disk, manifest, Manifest(done)).Success?
    ensures AllClean(Rebuilt(disk, manifest, Manifest(done)).value)
  {
    if done != [] {
      var n := |done| - 1;
      assert Manifest(done)[..n] == Manifest(done[..n]);
      RebuiltIsClean(disk, manifest, done[..n]);
      var entry := Received(disk, manifest, Announced(done[n])).value;
      ValidatedIsClean(done[n].path);
      InstallKeepsClean(Rebuilt(disk, manifest, Manifest(done[..n])).value, entry);
    }
  }

  lemma CollectedIsReadable(t: Tree)
    requires WellFormed(t) && t.Folder? && ValidNames(t) && CleanNames(t)
    ensures Readable(Collected([], t))
  {
    TreeHolds([], t);
    CollectedPaths([], t, true);
    forall e | e in Collected([], t) ensures ValidPath(e.path) {
      var i :| 0 <= i < |Collected([], t)| && Collected([], t)[i] == e;
    }
  }

  lemma CleanTreeRoundTrip(t: Tree, order: seq<Entry>, done: seq<Entry>)
    requires WellFormed(t) && t.Folder? && ValidNames(t) && CleanNames(t)
    requires Reordered(order, Collected([], t)) && Reordered(done, Collected([], t))
    ensures Rebuilt(Denote([], t), Manifest(order), Manifest(done)) == Success(Denote([], t))
  {
    var collected, disk := Collected([], t), Denote([], t);
    CollectedIsReadable(t);
    TreeHolds([], t);
    StillCompatible(collected, order);
    RebuildRestores(t, done);
    forall e | e in order ensures e.path in disk && disk[e.path] == e.item {
      assert e in collected;
      var i :| 0 <= i < |collected| && collected[i] == e;
    }
    RebuiltIsInstalled(disk, order, done);
  }

  /**
    Whatever the order of the manifest and the order in which its entries are received, the receiver ends up with the
    tree that the server has, empty folders and all, if and only if no name in the tree has a backslash in it.
  */
  lemma DirectoryRoundTrip(t: Tree, order: seq<Entry>, done: seq<Entry>)
    requires WellFormed(t) && t.Folder? && ValidNames(t)
    requires Reordered(order, Collected([], t)) && Reordered(done, Collected([], t))
    ensures Rebuilt(Denote([], t), Manifest(order), Manifest(done)) == Success(Denote([], t)) <==> CleanNames(t)
  {
    if CleanNames(t) {
      CleanTreeRoundTrip(t, order, done);
    } else {
      var p := UncleanPath([], t);
      if Rebuilt(Denote([], t), Manifest(order), Manifest(done)).Success? {
        RebuiltIsClean(Denote([], t), Manifest(order), done);
      }
    }
  }

  lemma {:induction false} OneFile(name: string, content: seq<Byte>)
    ensures var t := Folder([Child(name, Leaf(content))]);
            Collected([], t) == [Entry([name], FileAt(content))] && Denote([], t).Keys == {[], [name]}
  {
    var children := [Child(name, Leaf(content))];
    assert children[..0] == [] && [] + [name] == [name];
    assert CollectedAll([], children[..0]) == [] && DenoteAll([], children[..0]) == map[];
    assert Collected([name], Leaf(content)) == [Entry([name], FileAt(content))];
    assert Denote([name], Leaf(content)) == map[[name] := FileAt(content)];
    assert CollectedAll([], children) == [] + [Entry([name], FileAt(content))];
  }

  lemma ServedFromElsewhere(disk: FileSystem, e: PreparedEntry, path: Path)
    requires e.kind == FileEntry && ValidatedPath(e.relativePath) == Success(path) && path !in disk
    ensures Rebuilt(disk, [e], [e]) == Failure(Unreadable)
  {
    assert [e][..0] == [];
    assert LookedUp([e], e.relativePath) == Success(e);
    assert Received(disk, [e], e) == Failure(Unreadable);
  }

  /** A file whose name has a backslash is announced under a path that is not on the server's disk. */
  lemma {:induction false} BackslashIsLost() returns (t: Tree)
    ensures WellFormed(t) && ValidNames(t) && t.Folder?
    ensures var manifest := Manifest(Collected([], t));
            Rebuilt(Denote([], t), manifest, manifest) == Failure(Unreadable)
  {
    var name := "a\\b";
    t := Folder([Child(name, Leaf([]))]);
    assert name == ['a', '\\', 'b'];
    OneFile(name, []);
    var entry := Entry([name], FileAt([]));
    assert EntryName([name]) == "a/b";
    var announced := PreparedEntry("a/b", FileEntry, 0);
    assert Announced(entry) == announced;
    assert Manifest([entry]) == [announced];
    NameOfTwo();
    assert |["a", "b"]| == 2;
    ServedFromElsewhere(Denote([], t), announced, ["a", "b"]);
  }

  lemma NameOfTwo()
    ensures ValidatedPath("a/b") == Success(["a", "b"])
  {
    SegmentsOfPrefix("a", "b");
    SegmentsOfPrefix("b", "");
    assert "a/b" == "a" + "/" + "b";
    NormalKeepsNames(["a", "b"]);
    assert Normal(["a", "b"]) == ["a", "b"];
  }

  // ----- the announced size -----

  function TreeBytes(t: Tree): nat
    decreases t, 1
  {
    match t
    case Leaf(content) => |content|
    case Folder(children) => TreeBytesAll(children)
  }

  function TreeBytesAll(children: seq<Child>): nat
    decreases children, 0
  {
    if children == [] then 0
    else TreeBytesAll(children[..|children| - 1]) + TreeBytes(children[|children| - 1].tree)
  }

  function Length(e: Entry): nat {
    if e.item.FileAt? then |e.item.content| else 0
  }

  function Weight(entries: seq<Entry>): nat {
    if entries == [] then 0 else Weight(entries[..|entries| - 1]) + Length(entries[|entries| - 1])
  }

  lemma {:induction false} WeightAppend(a: seq<Entry>, b: seq<Entry>)
    ensures Weight(a + b) == Weight(a) + Weight(b)
  {
    if b == [] {
      assert a + b == a;
    } else {
      assert (a + b)[..|a + b| - 1] == a + b[..|b| - 1];
      WeightAppend(a, b[..|b| - 1]);
    }
  }

  lemma {:induction false} WeightOfTree(at: Path, t: Tree)
    ensures Weight(Collected(at, t)) == TreeBytes(t)
    decreases t, 1
  {
    if t.Leaf? {
      assert Collected(at, t) == [] + [Entry(at, FileAt(t.content))];
      WeightAppend([], [Entry(at, FileAt(t.content))]);
    } else if t.children == [] && at != [] {
      assert Collected(at, t) == [] + [Entry(at, DirAt)];
    } else {
      WeightOfChildren(at, t.children);
    }
  }

  lemma {:induction false} WeightOfChildren(at: Path, children: seq<Child>)
    ensures Weight(CollectedAll(at, children)) == TreeBytesAll(children)
    decreases children, 0
  {
    if children != [] {
      var n := |children| - 1;
      WeightOfChildren(at, children[..n]);
      WeightOfTree(at + [children[n].name], children[n].tree);
      WeightAppend(CollectedAll(at, children[..n]), Collected(at + [children[n].name], children[n].tree));
    }
  }

  lemma WeightRemove(b: seq<Entry>, k: nat)
    requires k < |b|
    ensures Weight(b) == Weight(b[..k] + b[k + 1..]) + Length(b[k])
  {
    assert b == b[..k + 1] + b[k + 1..] && b[..k + 1][..k] == b[..k];
    WeightAppend(b[..k + 1], b[k + 1..]);
    WeightAppend(b[..k], b[k + 1..]);
  }

  lemma {:induction false} WeightReordered(a: seq<Entry>, b: seq<Entry>)
    requires Reordered(a, b) && Reordered(b, a)
    ensures Weight(a) == Weight(b)
  {
    if a == [] {
      assert forall i | 0 <= i < |b| :: b[i] in a;
    } else {
      var n := |a| - 1;
      assert a[n] in b;
      var k :| 0 <= k < |b| && b[k] == a[n];
      WithoutOne(a, b, k);
      WeightReordered(a[..n], b[..k] + b[k + 1..]);
      WeightRemove(b, k);
    }
  }

  lemma WithoutOne(a: seq<Entry>, b: seq<Entry>, k: nat)
    requires a != [] && k < |b| && b[k] == a[|a| - 1] && Reordered(a, b) && Reordered(b, a)
    ensures var first, rest := a[..|a| - 1], b[..k] + b[k + 1..]; Reordered(first, rest) && Reordered(rest, first)
  {
    var n := |a| - 1;
    var first, rest := a[..n], b[..k] + b[k + 1..];
    forall e ensures e in first <==> e in rest {
      assert e in first <==> e in a && e != a[n];
      assert e in rest <==> e in b && e != b[k];
    }
  }

  lemma {:induction false} SizesOfManifest(entries: seq<Entry>)
    ensures Sum(Sizes(Files(Manifest(entries)))) == Weight(entries)
  {
    if entries != [] {
      var n := |entries| - 1;
      SizesOfManifest(entries[..n]);
      assert Manifest(entries)[..n] == Manifest(entries[..n]);
      var files := Files(Manifest(entries[..n]));
      if entries[n].item.FileAt? {
        assert Files(Manifest(entries)) == files + [Announced(entries[n])];
        SizesAppend(files, Announced(entries[n]));
      } else {
        assert Files(Manifest(entries)) == files;
      }
    }
  }

  /** The size announced for a directory is the sum of its files' sizes, or 2^64 - 1 when that is smaller. */
  lemma AnnouncedSizeIsTreeSize(t: Tree, order: seq<Entry>)
    requires WellFormed(t) && t.Folder? && Reordered(order, Collected([], t))
    ensures TotalSize(Manifest(order)) == Min(U64_MAX, TreeBytes(t))
  {
    SizesOfManifest(order);
    WeightOfTree([], t);
    TreeHolds([], t);
    assert forall i, j | 0 <= i < j < |Collected([], t)| :: Collected([], t)[i] != Collected([], t)[j];
    WeightReordered(order, Collected([], t));
  }
}
