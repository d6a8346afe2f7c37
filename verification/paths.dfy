/** Slash-separated names: their components, and which of them a received item may be stored under. */
module Paths {
  import opened Wrappers
  import opened Text

  /** What lies between the slashes. */
  function Segments(s: string): (r: seq<string>)
    ensures r != []
  {
    if s == "" then [""]
    else
      var rest := Segments(s[1..]);
      if s[0] == '/' then [""] + rest else [[s[0]] + rest[0]] + rest[1..]
  }

  predicate Skipped(segment: string) {
    segment == "" || segment == "."
  }

  /** The segments that name something. */
  function Normal(segments: seq<string>): seq<string> {
    if segments == [] then []
    else
      var last := segments[|segments| - 1];
      Normal(segments[..|segments| - 1]) + (if Skipped(last) then [] else [last])
  }

  lemma {:induction false} SegmentsOfPrefix(name: string, rest: string)
    requires '/' !in name
    ensures Segments(name + "/" + rest) == [name] + Segments(rest)
    ensures Segments(name) == [name]
  {
    if name == "" {
      assert name + "/" + rest == "/" + rest;
      assert ("/" + rest)[1..] == rest;
    } else {
      SegmentsOfPrefix(name[1..], rest);
      assert (name + "/" + rest)[1..] == name[1..] + "/" + rest;
      assert [name[0]] + name[1..] == name;
    }
  }

  // ----- names of received items -----

  /** The last component, unless that leads back up or there is none. */
  function FileName(name: string): Option<string> {
    var components := Normal(Segments(name));
    if components == [] || components[|components| - 1] == ".." then None
    else Some(components[|components| - 1])
  }

  function TrimmedStart(s: string): string {
    if s != "" && IsWhitespace(s[0]) then TrimmedStart(s[1..]) else s
  }

  function TrimmedEnd(s: string): string {
    if s != "" && IsWhitespace(s[|s| - 1]) then TrimmedEnd(s[..|s| - 1]) else s
  }

  function Trimmed(s: string): string {
    TrimmedEnd(TrimmedStart(s))
  }

  /** An item of this name can be stored in the download directory. */
  predicate ReceivableName(name: string) {
    FileName(name).Some? && Trimmed(FileName(name).value) !in ["", ".", ".."]
  }

  /** A name without slashes is refused exactly when nothing is left of it, or only dots that stand for a directory. */
  lemma PlainNameReceivable(name: string)
    requires '/' !in name
    ensures ReceivableName(name) <==> Trimmed(name) !in ["", ".", ".."]
  {
    SegmentsOfPrefix(name, "");
    assert [name][..0] == [];
    assert Normal([name]) == if Skipped(name) then [] else [name];
    DotsStay();
  }

  lemma DotsStay()
    ensures Trimmed("") == "" && Trimmed(".") == "." && Trimmed("..") == ".."
  {
    assert !IsWhitespace("."[0]) && !IsWhitespace(".."[0]) && !IsWhitespace(".."[1]);
  }

  lemma {:induction false} SegmentsConcat(dir: string, name: string)
    ensures Segments(dir + "/" + name) == Segments(dir) + Segments(name)
  {
    if dir == "" {
      assert dir + "/" + name == "/" + name;
      assert ("/" + name)[1..] == name;
    } else {
      assert (dir + "/" + name)[1..] == dir[1..] + "/" + name;
      SegmentsConcat(dir[1..], name);
    }
  }

  /** Only the last component counts, and a slash after it does not. */
  lemma {:induction false} LastNameCounts(dir: string, name: string)
    requires '/' !in name && !Skipped(name)
    ensures ReceivableName(dir + "/" + name) <==> ReceivableName(name)
    ensures ReceivableName(name + "/") <==> ReceivableName(name)
  {
    SegmentsOfPrefix(name, "");
    SegmentsConcat(dir, name);
    SegmentsConcat(name, "");
    var all := Segments(dir) + [name];
    assert all[..|all| - 1] == Segments(dir) && [name][..0] == [] && [name, ""][..1] == [name];
    assert name + "/" + "" == name + "/";
    assert Segments("") == [""] && [name] + [""] == [name, ""];
    assert Normal([name]) == [name];
  }

  lemma {:induction false} TrimmedStartIs(s: string) returns (before: string)
    ensures Blank(before) && s == before + TrimmedStart(s)
    ensures TrimmedStart(s) != "" ==> !IsWhitespace(TrimmedStart(s)[0])
  {
    if s != "" && IsWhitespace(s[0]) {
      var rest := TrimmedStartIs(s[1..]);
      before := [s[0]] + rest;
      assert s == [s[0]] + s[1..];
    } else {
      before := "";
    }
  }

  lemma {:induction false} TrimmedEndIs(s: string) returns (after: string)
    ensures Blank(after) && s == TrimmedEnd(s) + after
    ensures TrimmedEnd(s) != "" ==> !IsWhitespace(TrimmedEnd(s)[|TrimmedEnd(s)| - 1])
  {
    if s != "" && IsWhitespace(s[|s| - 1]) {
      var n := |s| - 1;
      var rest := TrimmedEndIs(s[..n]);
      after := rest + [s[n]];
      assert s == s[..n] + [s[n]];
    } else {
      after := "";
    }
  }

  /** Trimming takes white space off both ends, and all of it. */
  lemma {:induction false} TrimmedIs(s: string) returns (before: string, after: string)
    ensures Blank(before) && Blank(after) && s == before + Trimmed(s) + after
    ensures var t := Trimmed(s); t != "" ==> !IsWhitespace(t[0]) && !IsWhitespace(t[|t| - 1])
  {
    before := TrimmedStartIs(s);
    after := TrimmedEndIs(TrimmedStart(s));
    assert Trimmed(s) != "" ==> Trimmed(s)[0] == TrimmedStart(s)[0];
  }
}
