/** The entries of a directory manifest, as they travel from the server to the receiver. */
module DirectoryEntries {
  import opened Bytes

  datatype EntryKind = FileEntry | EmptyDirectory

  datatype PreparedEntry = PreparedEntry(relativePath: string, kind: EntryKind, size: nat)

  function Files(entries: seq<PreparedEntry>): seq<PreparedEntry> {
    if entries == [] then []
    else
      var last := entries[|entries| - 1];
      Files(entries[..|entries| - 1]) + (if last.kind == FileEntry then [last] else [])
  }

  function Sizes(files: seq<PreparedEntry>): (r: seq<nat>)
    ensures |r| == |files|
  {
    seq(|files|, i requires 0 <= i < |files| => files[i].size)
  }

  /** All the bytes of a directory, as far as a 64-bit counter can tell. */
  function TotalSize(entries: seq<PreparedEntry>): nat {
    Min(U64_MAX, Sum(Sizes(Files(entries))))
  }

  lemma SizesAppend(files: seq<PreparedEntry>, last: PreparedEntry)
    ensures Sum(Sizes(files + [last])) == Sum(Sizes(files)) + last.size
  {
    assert Sizes(files + [last]) == Sizes(files) + [last.size];
    SumAppend(Sizes(files), last.size);
  }

  /** The server's fold over the sizes of the file entries. */
  method ComputeTotalSize(entries: seq<PreparedEntry>) returns (total: nat)
    ensures total == TotalSize(entries)
  {
    total := 0;
    for i := 0 to |entries|
      invariant total == TotalSize(entries[..i])
    {
      assert entries[..i + 1][..i] == entries[..i];
      if entries[i].kind == FileEntry {
        assert Files(entries[..i + 1]) == Files(entries[..i]) + [entries[i]];
        SizesAppend(Files(entries[..i]), entries[i]);
        total := SaturatingAdd(total, entries[i].size);
      } else {
        assert Files(entries[..i + 1]) == Files(entries[..i]);
      }
    }
    assert entries[..|entries|] == entries;
  }

  /** The number of requests the server waits for before it is done. */
  method ExpectedFileRequests(entries: seq<PreparedEntry>) returns (count: nat)
    ensures count == |Files(entries)|
  {
    count := 0;
    for i := 0 to |entries|
      invariant count == |Files(entries[..i])|
    {
      assert entries[..i + 1][..i] == entries[..i];
      if entries[i].kind == FileEntry {
        count := count + 1;
      }
    }
    assert entries[..|entries|] == entries;
  }

  method CollectFiles(entries: seq<PreparedEntry>) returns (files: seq<PreparedEntry>)
    ensures files == Files(entries)
  {
    files := [];
    for i := 0 to |entries|
      invariant files == Files(entries[..i])
    {
      assert entries[..i + 1][..i] == entries[..i];
      if entries[i].kind == FileEntry {
        files := files + [entries[i]];
      }
    }
    assert entries[..|entries|] == entries;
  }
}
