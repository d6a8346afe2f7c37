/** Splitting a command line into words with quotes and escapes, and the escaping that undoes it. */
module ShellWords {
  import opened Wrappers
  import opened Text

  datatype SplitError = UnfinishedEscape | UnterminatedQuote

  /** What has been read so far: whole words, the word at hand, an open quote, and a backslash that waits. */
  datatype Lexer = Lexer(words: seq<string>, current: string, quote: Option<char>, escaped: bool)

  function NoWords(): Lexer {
    Lexer([], "", None, false)
  }

  function Ended(words: seq<string>, current: string): seq<string> {
    if current == "" then words else words + [current]
  }

  function Next(l: Lexer, c: char): Lexer {
    if l.escaped then l.(current := l.current + [c], escaped := false)
    else if l.quote.Some? then
      if c == '\\' && l.quote.value == '"' then l.(escaped := true)
      else if c == l.quote.value then l.(quote := None)
      else l.(current := l.current + [c])
    else if c == '\'' || c == '"' then l.(quote := Some(c))
    else if c == '\\' then l.(escaped := true)
    else if IsWhitespace(c) then l.(words := Ended(l.words, l.current), current := "")
    else l.(current := l.current + [c])
  }

  function Lex(l: Lexer, s: string): Lexer {
    if s == "" then l else Next(Lex(l, s[..|s| - 1]), s[|s| - 1])
  }

  function Finish(l: Lexer): Result<seq<string>, SplitError> {
    if l.escaped then Failure(UnfinishedEscape)
    else if l.quote.Some? then Failure(UnterminatedQuote)
    else Success(Ended(l.words, l.current))
  }

  function Split(line: string): Result<seq<string>, SplitError> {
    Finish(Lex(NoWords(), line))
  }

  lemma LexOne(line: string, i: nat)
    requires i < |line|
    ensures Lex(NoWords(), line[..i + 1]) == Next(Lex(NoWords(), line[..i]), line[i])
  {
    assert line[..i + 1][..i] == line[..i];
  }

  /** Reads the character after a backslash along with it, where the specification remembers the backslash. */
  method SplitShellWords(line: string) returns (r: Result<seq<string>, SplitError>)
    ensures r == Split(line)
  {
    var out: seq<string> := [];
    var current := "";
    var quote: Option<char> := None;
    var i := 0;
    while i < |line|
      invariant i <= |line|
      invariant Lex(NoWords(), line[..i]) == Lexer(out, current, quote, false)
    {
      var ch := line[i];
      i := i + 1;
      LexOne(line, i - 1);
      if quote.Some? {
        if ch == '\\' && quote.value == '"' {
          if i == |line| {
            assert line[..i] == line;
            return Failure(UnfinishedEscape);
          }
          current := current + [line[i]];
          LexOne(line, i);
          i := i + 1;
        } else if ch == quote.value {
          quote := None;
        } else {
          current := current + [ch];
        }
      } else if ch == '\'' || ch == '"' {
        quote := Some(ch);
      } else if ch == '\\' {
        if i == |line| {
          assert line[..i] == line;
          return Failure(UnfinishedEscape);
        }
        current := current + [line[i]];
        LexOne(line, i);
        i := i + 1;
      } else if IsWhitespace(ch) {
        if current != "" {
          out := out + [current];
          current := "";
        }
      } else {
        current := current + [ch];
      }
    }
    assert line[..i] == line;
    if quote.Some? {
      return Failure(UnterminatedQuote);
    }
    r := Success(if current == "" then out else out + [current]);
  }

  // ----- escaping -----

  predicate NeedsEscape(c: char) {
    IsWhitespace(c) || c in ['\\', '\'', '"', '$', '`']
  }

  function Escape(s: string): string {
    if s == "" then ""
    else
      var c := s[|s| - 1];
      Escape(s[..|s| - 1]) + (if NeedsEscape(c) then ['\\', c] else [c])
  }

  method EscapeShellToken(value: string) returns (escaped: string)
    ensures escaped == Escape(value)
  {
    escaped := "";
    for i := 0 to |value|
      invariant escaped == Escape(value[..i])
    {
      assert value[..i + 1][..i] == value[..i];
      if NeedsEscape(value[i]) {
        escaped := escaped + ['\\'];
      }
      escaped := escaped + [value[i]];
    }
    assert value[..|value|] == value;
  }

  function JoinWords(words: seq<string>): string {
    if words == [] then ""
    else if |words| == 1 then words[0]
    else JoinWords(words[..|words| - 1]) + " " + words[|words| - 1]
  }

  function EscapeAll(tokens: seq<string>): (r: seq<string>)
    ensures |r| == |tokens|
  {
    seq(|tokens|, i requires 0 <= i < |tokens| => Escape(tokens[i]))
  }

  function NonEmpty(tokens: seq<string>): seq<string> {
    if tokens == [] then [] else Ended(NonEmpty(tokens[..|tokens| - 1]), tokens[|tokens| - 1])
  }

  lemma {:induction false} LexAppend(l: Lexer, a: string, b: string)
    ensures Lex(l, a + b) == Lex(Lex(l, a), b)
  {
    if b == "" {
      assert a + b == a;
    } else {
      assert (a + b)[..|a + b| - 1] == a + b[..|b| - 1];
      LexAppend(l, a, b[..|b| - 1]);
    }
  }

  lemma LexTwo(l: Lexer, c: char, d: char)
    ensures Lex(l, [c, d]) == Next(Next(l, c), d)
  {
    assert [c, d][..1] == [c] && [c][..0] == "";
    assert Lex(l, [c]) == Next(l, c);
  }

  /** An escaped token is read as just that token, whatever word it continues. */
  lemma {:induction false} LexEscaped(words: seq<string>, current: string, token: string)
    ensures Lex(Lexer(words, current, None, false), Escape(token)) == Lexer(words, current + token, None, false)
  {
    var start := Lexer(words, current, None, false);
    if token == "" {
      assert current + token == current;
    } else {
      var n := |token| - 1;
      var c := token[n];
      LexEscaped(words, current, token[..n]);
      assert current + token == current + token[..n] + [c];
      var before := Escape(token[..n]);
      if NeedsEscape(c) {
        LexAppend(start, before, ['\\', c]);
        LexTwo(Lex(start, before), '\\', c);
      } else {
        LexAppend(start, before, [c]);
      }
    }
  }

  lemma LexSpace(l: Lexer)
    requires l.quote == None && !l.escaped
    ensures Lex(l, " ") == l.(words := Ended(l.words, l.current), current := "")
  {
    assert " "[..0] == "" && Lex(l, "") == l;
  }

  lemma {:induction false} LexJoined(tokens: seq<string>)
    requires tokens != []
    ensures var n := |tokens| - 1;
            Lex(NoWords(), JoinWords(EscapeAll(tokens))) == Lexer(NonEmpty(tokens[..n]), tokens[n], None, false)
  {
    var n := |tokens| - 1;
    if n == 0 {
      LexEscaped([], "", tokens[0]);
    } else {
      LexJoined(tokens[..n]);
      var joined := JoinWords(EscapeAll(tokens[..n]));
      assert EscapeAll(tokens)[..n] == EscapeAll(tokens[..n]);
      assert tokens[..n][..n - 1] == tokens[..n - 1];
      LexAppend(NoWords(), joined + " ", Escape(tokens[n]));
      LexAppend(NoWords(), joined, " ");
      LexSpace(Lex(NoWords(), joined));
      LexEscaped(NonEmpty(tokens[..n]), "", tokens[n]);
    }
  }

  /** Tokens that are escaped and joined by spaces are split into the same tokens; empty ones are lost. */
  lemma QuotingRoundTrip(tokens: seq<string>)
    ensures Split(JoinWords(EscapeAll(tokens))) == Success(NonEmpty(tokens))
    ensures Split(JoinWords(EscapeAll(tokens))) == Success(tokens) <==> "" !in tokens
  {
    if tokens != [] {
      LexJoined(tokens);
    }
    NonEmptyKeeps(tokens);
  }

  lemma {:induction false} NonEmptyKeeps(tokens: seq<string>)
    ensures "" !in NonEmpty(tokens)
    ensures "" !in tokens ==> NonEmpty(tokens) == tokens
  {
    if tokens != [] {
      var n := |tokens| - 1;
      NonEmptyKeeps(tokens[..n]);
      assert tokens == tokens[..n] + [tokens[n]];
    }
  }

  // ----- what needs escaping -----

  /** What a word may not contain as it stands. */
  predicate Special(c: char) {
    IsWhitespace(c) || c == '\\' || c == '\'' || c == '"'
  }

  ghost predicate Plain(s: string) {
    forall i | 0 <= i < |s| :: !Special(s[i])
  }

  function Volume(words: seq<string>): nat {
    if words == [] then 0 else Volume(words[..|words| - 1]) + |words[|words| - 1]|
  }

  lemma NextVolume(l: Lexer, c: char)
    ensures Volume(Next(l, c).words) + |Next(l, c).current| <= Volume(l.words) + |l.current| + 1
    ensures l.quote.None? && !l.escaped && Special(c) ==>
              Volume(Next(l, c).words) + |Next(l, c).current| == Volume(l.words) + |l.current|
  {
    assert (l.words + [l.current])[..|l.words|] == l.words;
  }

  /** Text without anything special is one word; the first special character of any other gets lost. */
  lemma {:induction false} SpecialsAreLost(s: string)
    ensures Plain(s) ==> Lex(NoWords(), s) == Lexer([], s, None, false)
    ensures var l := Lex(NoWords(), s); Volume(l.words) + |l.current| <= |s| - if Plain(s) then 0 else 1
  {
    if s != "" {
      var n := |s| - 1;
      SpecialsAreLost(s[..n]);
      NextVolume(Lex(NoWords(), s[..n]), s[n]);
      assert Plain(s) <==> Plain(s[..n]) && !Special(s[n]);
      assert s[..n] + [s[n]] == s;
    }
  }

  /** Text has to be escaped to be one word exactly when it contains white space, a quote or a backslash. */
  lemma {:induction false} WhenEscapingIsNeeded(s: string)
    requires s != ""
    ensures Split(s) == Success([s]) <==> Plain(s)
  {
    SpecialsAreLost(s);
    var l := Lex(NoWords(), s);
    assert [] + [s] == [s];
    if Split(s) == Success([s]) {
      assert [s][..0] == [] && Volume([s]) == |s|;
      assert (l.words + [l.current])[..|l.words|] == l.words;
    }
  }

  /** Escaping leaves text as it is exactly when that has nothing special in it and neither `$` nor a backquote. */
  lemma {:induction false} WhenEscapingChanges(s: string)
    ensures |Escape(s)| >= |s|
    ensures Escape(s) == s <==> Plain(s) && '$' !in s && '`' !in s
    ensures |Escape(s)| == |s| ==> Escape(s) == s
  {
    if s != "" {
      var n := |s| - 1;
      WhenEscapingChanges(s[..n]);
      assert s == s[..n] + [s[n]];
      assert Plain(s) <==> Plain(s[..n]) && !Special(s[n]);
    }
  }

  // ----- quoting -----

  /** The escaping that double quotes ask for. */
  function EscapeInQuotes(s: string): string {
    if s == "" then ""
    else
      var c := s[|s| - 1];
      EscapeInQuotes(s[..|s| - 1]) + (if c == '"' || c == '\\' then ['\\', c] else [c])
  }

  lemma {:induction false} LexInDoubleQuotes(l: Lexer, s: string)
    requires l.quote == Some('"') && !l.escaped
    ensures Lex(l, EscapeInQuotes(s)) == l.(current := l.current + s)
  {
    if s == "" {
      assert l.current + s == l.current;
    } else {
      var n := |s| - 1;
      var before := EscapeInQuotes(s[..n]);
      LexInDoubleQuotes(l, s[..n]);
      assert l.current + s == l.current + s[..n] + [s[n]];
      if s[n] == '"' || s[n] == '\\' {
        LexAppend(l, before, ['\\', s[n]]);
        LexTwo(Lex(l, before), '\\', s[n]);
      } else {
        LexAppend(l, before, [s[n]]);
      }
    }
  }

  lemma {:induction false} LexInSingleQuotes(l: Lexer, s: string)
    requires l.quote == Some('\'') && !l.escaped && '\'' !in s
    ensures Lex(l, s) == l.(current := l.current + s)
  {
    if s == "" {
      assert l.current + s == l.current;
    } else {
      var n := |s| - 1;
      LexInSingleQuotes(l, s[..n]);
      assert s[n] in s;
      assert l.current + s == l.current + s[..n] + [s[n]];
    }
  }

  lemma LexQuoted(quote: char, inner: string, s: string)
    requires quote in {'\'', '"'}
    requires Lex(NoWords().(quote := Some(quote)), inner) == Lexer([], s, Some(quote), false)
    ensures Lex(NoWords(), [quote] + inner) == Lexer([], s, Some(quote), false)
    ensures Lex(NoWords(), [quote] + inner + [quote]) == Lexer([], s, None, false)
  {
    assert [quote][..0] == "" && Lex(NoWords(), [quote]) == Next(NoWords(), quote);
    LexAppend(NoWords(), [quote], inner);
    LexAppend(NoWords(), [quote] + inner, [quote]);
    var l := Lex(NoWords(), [quote] + inner);
    assert Lex(l, [quote]) == Next(l, quote);
  }

  /**
    Single quotes keep everything but themselves, double quotes keep everything once escaped; and a quote that is not
    closed is an error.
  */
  lemma QuotedTextIsOneWord(s: string)
    requires s != ""
    ensures '\'' !in s ==> Split("'" + s + "'") == Success([s]) && Split("'" + s) == Failure(UnterminatedQuote)
    ensures Split("\"" + EscapeInQuotes(s) + "\"") == Success([s])
    ensures Split("\"" + EscapeInQuotes(s)) == Failure(UnterminatedQuote)
  {
    assert "" + s == s && [] + [s] == [s];
    assert "'" == ['\''] && "\"" == ['"'];
    LexInDoubleQuotes(NoWords().(quote := Some('"')), s);
    LexQuoted('"', EscapeInQuotes(s), s);
    if '\'' !in s {
      LexInSingleQuotes(NoWords().(quote := Some('\'')), s);
      LexQuoted('\'', s, s);
    }
  }
}
