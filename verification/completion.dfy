/**
  Completing a path on a `/send` line: the tokens before the cursor with the spans they take up, the token that is
  being completed, and the edit that replaces it.
*/
module Completion {
  import opened Wrappers
  import opened Text
  import opened ShellWords

  /** A token and the positions between which it stands, quotes and backslashes included. */
  datatype Token = Token(value: string, start: nat, end: nat)

  /** Like `Lexer`, with every token whether empty or not, and the position where the one at hand began. */
  datatype Scanner = Scanner(
    tokens: seq<Token>, current: string, start: Option<nat>, quote: Option<char>, escaped: bool)

  function Opened(p: Scanner, at: nat): Scanner {
    if p.start.None? then p.(start := Some(at)) else p
  }

  function NextAt(p: Scanner, c: char, at: nat): Scanner {
    if p.escaped then p.(current := p.current + [c], escaped := false)
    else if p.quote.Some? then
      if c == '\\' && p.quote.value == '"' then p.(escaped := true)
      else if c == p.quote.value then p.(quote := None)
      else p.(current := p.current + [c])
    else if IsWhitespace(c) then
      if p.start.None? then p
      else p.(tokens := p.tokens + [Token(p.current, p.start.value, at)], current := "", start := None)
    else if c == '\'' || c == '"' then Opened(p, at).(quote := Some(c))
    else if c == '\\' then Opened(p, at).(escaped := true)
    else Opened(p, at).(current := p.current + [c])
  }

  function Scan(s: string): Scanner {
    if s == "" then Scanner([], "", None, None, false)
    else NextAt(Scan(s[..|s| - 1]), s[|s| - 1], |s| - 1)
  }

  function Tokens(s: string): seq<Token> {
    var p := Scan(s);
    if p.start.Some? then p.tokens + [Token(p.current, p.start.value, |s|)]
    else if p.tokens != [] && s != "" && IsWhitespace(s[|s| - 1]) then p.tokens + [Token("", |s|, |s|)]
    else p.tokens
  }

  lemma ScanOne(s: string, i: nat)
    requires i < |s|
    ensures Scan(s[..i + 1]) == NextAt(Scan(s[..i]), s[i], i)
  {
    assert s[..i + 1][..i] == s[..i];
  }

  method PartialShellTokens(input: string) returns (tokens: seq<Token>)
    ensures tokens == Tokens(input)
  {
    tokens := [];
    var current := "";
    var tokenStart: Option<nat> := None;
    var quote: Option<char> := None;
    ghost var escaped := false;
    var i := 0;
    while i < |input|
      invariant i <= |input|
      invariant escaped ==> i == |input|
      invariant Scan(input[..i]) == Scanner(tokens, current, tokenStart, quote, escaped)
    {
      var ch := input[i];
      var index := i;
      i := i + 1;
      ScanOne(input, index);
      if quote.Some? {
        if ch == '\\' && quote.value == '"' {
          if i < |input| {
            current := current + [input[i]];
            ScanOne(input, i);
            i := i + 1;
          } else {
            escaped := true;
          }
        } else if ch == quote.value {
          quote := None;
        } else {
          current := current + [ch];
        }
      } else if IsWhitespace(ch) {
        if tokenStart.Some? {
          tokens := tokens + [Token(current, tokenStart.value, index)];
          current := "";
          tokenStart := None;
        }
      } else {
        if tokenStart.None? {
          tokenStart := Some(index);
        }
        if ch == '\'' || ch == '"' {
          quote := Some(ch);
        } else if ch == '\\' {
          if i < |input| {
            current := current + [input[i]];
            ScanOne(input, i);
            i := i + 1;
          } else {
            escaped := true;
          }
        } else {
          current := current + [ch];
        }
      }
    }
    assert input[..i] == input;
    if tokenStart.Some? {
      tokens := tokens + [Token(current, tokenStart.value, |input|)];
    } else if tokens != [] && input != "" && IsWhitespace(input[|input| - 1]) {
      tokens := tokens + [Token("", |input|, |input|)];
    }
  }

  // ----- what the scanner knows -----

  function Values(tokens: seq<Token>): (r: seq<string>)
    ensures |r| == |tokens|
    ensures forall i | 0 <= i < |r| :: r[i] == tokens[i].value
  {
    seq(|tokens|, i requires 0 <= i < |tokens| => tokens[i].value)
  }

  /** The words a splitter would have, having read as much. */
  function AsLexer(p: Scanner): Lexer {
    Lexer(NonEmpty(Values(p.tokens)), p.current, p.quote, p.escaped)
  }

  lemma ValuesAppend(tokens: seq<Token>, last: Token)
    ensures NonEmpty(Values(tokens + [last])) == Ended(NonEmpty(Values(tokens)), last.value)
  {
    assert Values(tokens + [last])[..|tokens|] == Values(tokens);
  }

  /** Between tokens the scanner is at rest, and the last thing it has read, if any, is white space. */
  ghost predicate AtRest(p: Scanner, s: string) {
    p.start.None? ==>
      && p.current == "" && p.quote == None && !p.escaped
      && (s != "" ==> IsWhitespace(s[|s| - 1]))
  }

  lemma NextMatches(p: Scanner, s: string, c: char, at: nat)
    requires AtRest(p, s)
    ensures AsLexer(NextAt(p, c, at)) == Next(AsLexer(p), c)
  {
    if p.start.Some? {
      ValuesAppend(p.tokens, Token(p.current, p.start.value, at));
    }
  }

  lemma {:induction false} ScanMatches(s: string)
    ensures AtRest(Scan(s), s)
    ensures AsLexer(Scan(s)) == Lex(NoWords(), s)
  {
    if s == "" {
      assert Values([]) == [];
    } else {
      var n := |s| - 1;
      ScanMatches(s[..n]);
      NextMatches(Scan(s[..n]), s[..n], s[n], n);
    }
  }

  /** Spans in order, with something between each and the next, all within the first n characters. */
  ghost predicate Apart(tokens: seq<Token>, n: nat) {
    && (forall i | 0 <= i < |tokens| :: tokens[i].start < tokens[i].end < n)
    && (forall i, j | 0 <= i < j < |tokens| :: tokens[i].end < tokens[j].start)
  }

  /** Before each token the scanner was at rest, with just the tokens before it. */
  ghost predicate CleanBefore(s: string, tokens: seq<Token>, k: nat, start: nat)
    requires k <= |tokens|
  {
    start <= |s| && Scan(s[..start]) == Scanner(tokens[..k], "", None, None, false)
  }

  ghost predicate Placed(s: string, p: Scanner) {
    && Apart(p.tokens, |s|)
    && (p.start.Some? ==>
          && p.start.value < |s| && CleanBefore(s, p.tokens, |p.tokens|, p.start.value)
          && forall i | 0 <= i < |p.tokens| :: p.tokens[i].end < p.start.value)
    && (forall k | 0 <= k < |p.tokens| :: CleanBefore(s, p.tokens, k, p.tokens[k].start))
  }

  lemma CleanBeforeExtends(s: string, c: char, tokens: seq<Token>, k: nat, start: nat, more: seq<Token>)
    requires k <= |tokens| && CleanBefore(s, tokens, k, start)
    ensures CleanBefore(s + [c], tokens, k, start) && CleanBefore(s + [c], tokens + more, k, start)
  {
    assert (s + [c])[..start] == s[..start];
    assert (tokens + more)[..k] == tokens[..k];
  }

  /** One more character ends the token at hand or leaves the finished tokens alone. */
  lemma NextTokens(p: Scanner, c: char, at: nat)
    ensures var after := NextAt(p, c, at);
            if after.tokens == p.tokens then p.start.Some? ==> after.start == p.start
            else p.start.Some? && after.start == None
                 && after.tokens == p.tokens + [Token(p.current, p.start.value, at)]
    ensures var after := NextAt(p, c, at);
            p.start.None? && after.start.Some? ==> after.start == Some(at) && after.tokens == p.tokens
  {
  }

  lemma SpansNext(s: string, p: Scanner, c: char)
    requires Placed(s, p)
    ensures var after := NextAt(p, c, |s|);
            && Apart(after.tokens, |s| + 1)
            && (after.start.Some? ==>
                  && after.start.value <= |s|
                  && forall i | 0 <= i < |after.tokens| :: after.tokens[i].end < after.start.value)
  {
    NextTokens(p, c, |s|);
  }

  lemma CleanNext(s: string, p: Scanner, c: char, k: nat)
    requires Placed(s, p) && k < |NextAt(p, c, |s|).tokens|
    ensures var after := NextAt(p, c, |s|); CleanBefore(s + [c], after.tokens, k, after.tokens[k].start)
  {
    NextTokens(p, c, |s|);
    var after := NextAt(p, c, |s|);
    var more := if after.tokens == p.tokens then [] else [Token(p.current, p.start.value, |s|)];
    assert after.tokens == p.tokens + more;
    assert CleanBefore(s, p.tokens, k, after.tokens[k].start);
    CleanBeforeExtends(s, c, p.tokens, k, after.tokens[k].start, more);
  }

  lemma {:induction false} StartNext(s: string, p: Scanner, c: char)
    requires Placed(s, p) && p == Scan(s) && AtRest(p, s) && NextAt(p, c, |s|).start.Some?
    ensures var after := NextAt(p, c, |s|); CleanBefore(s + [c], after.tokens, |after.tokens|, after.start.value)
  {
    NextTokens(p, c, |s|);
    assert p.tokens[..|p.tokens|] == p.tokens;
    if p.start.Some? {
      CleanBeforeExtends(s, c, p.tokens, |p.tokens|, p.start.value, []);
    } else {
      assert (s + [c])[..|s|] == s;
    }
  }

  lemma {:induction false} PlacedNext(s: string, p: Scanner, c: char)
    requires Placed(s, p) && p == Scan(s) && AtRest(p, s)
    ensures Placed(s + [c], NextAt(p, c, |s|))
  {
    var after := NextAt(p, c, |s|);
    SpansNext(s, p, c);
    forall k | 0 <= k < |after.tokens| ensures CleanBefore(s + [c], after.tokens, k, after.tokens[k].start) {
      CleanNext(s, p, c, k);
    }
    if after.start.Some? {
      StartNext(s, p, c);
    }
  }

  lemma {:induction false} ScanPlaced(s: string)
    ensures Placed(s, Scan(s))
  {
    if s != "" {
      var n := |s| - 1;
      ScanPlaced(s[..n]);
      ScanMatches(s[..n]);
      assert s[..n] + [s[n]] == s;
      PlacedNext(s[..n], Scan(s[..n]), s[n]);
    }
  }

  lemma TokensSplit(s: string)
    ensures Split(s).Success? ==> Split(s).value == NonEmpty(Values(Tokens(s)))
  {
    ScanMatches(s);
    var p := Scan(s);
    ValuesAppend(p.tokens, Token("", |s|, |s|));
    if p.start.Some? {
      ValuesAppend(p.tokens, Token(p.current, p.start.value, |s|));
    }
  }

  lemma TokensApart(s: string)
    ensures forall i | 0 <= i < |Tokens(s)| :: Tokens(s)[i].start <= Tokens(s)[i].end <= |s|
    ensures forall i, j | 0 <= i < j < |Tokens(s)| :: Tokens(s)[i].end < Tokens(s)[j].start
  {
    ScanPlaced(s);
  }

  lemma TokenStandsClear(s: string, k: nat)
    requires k < |Tokens(s)|
    ensures CleanBefore(s, Tokens(s), k, Tokens(s)[k].start)
  {
    ScanMatches(s);
    ScanPlaced(s);
    var p, tokens := Scan(s), Tokens(s);
    assert s[..|s|] == s;
    assert tokens[..k] == p.tokens[..k];
    if k < |p.tokens| {
      assert CleanBefore(s, p.tokens, k, p.tokens[k].start);
    }
  }

  /** Where a finished token ends, it had been read in full, and no quote was open. */
  ghost predicate FullAtEnd(s: string, tokens: seq<Token>, k: nat)
    requires k < |tokens|
  {
    var t := tokens[k];
    t.end <= |s| && Scan(s[..t.end]) == Scanner(tokens[..k], t.value, Some(t.start), None, false)
  }

  lemma FullExtends(s: string, c: char, tokens: seq<Token>, k: nat, more: seq<Token>)
    requires k < |tokens| && FullAtEnd(s, tokens, k)
    ensures FullAtEnd(s + [c], tokens + more, k)
  {
    assert (s + [c])[..tokens[k].end] == s[..tokens[k].end];
    assert (tokens + more)[..k] == tokens[..k];
  }

  lemma FullNext(s: string, c: char, k: nat)
    requires k < |Scan(s).tokens| ==> FullAtEnd(s, Scan(s).tokens, k)
    requires k < |Scan(s + [c]).tokens|
    ensures FullAtEnd(s + [c], Scan(s + [c]).tokens, k)
  {
    var p := Scan(s);
    var after := NextAt(p, c, |s|);
    assert (s + [c])[..|s|] == s;
    NextTokens(p, c, |s|);
    var more := if after.tokens == p.tokens then [] else [Token(p.current, p.start.value, |s|)];
    assert after.tokens == p.tokens + more;
    if k < |p.tokens| {
      FullExtends(s, c, p.tokens, k, more);
    } else {
      assert after.tokens[..k] == p.tokens;
    }
  }

  lemma {:induction false} ScanFull(s: string, k: nat)
    requires k < |Scan(s).tokens|
    ensures FullAtEnd(s, Scan(s).tokens, k)
  {
    if s != "" {
      var n := |s| - 1;
      assert s[..n] + [s[n]] == s;
      if k < |Scan(s[..n]).tokens| { ScanFull(s[..n], k); }
      FullNext(s[..n], s[n], k);
    }
  }

  lemma TokenEndsClear(s: string, k: nat)
    requires k < |Tokens(s)| - 1
    ensures Tokens(s)[k].end <= |s|
    ensures Split(s[..Tokens(s)[k].end]) == Success(NonEmpty(Values(Tokens(s)[..k + 1])))
  {
    var tokens := Tokens(s);
    ScanFull(s, k);
    ScanMatches(s[..tokens[k].end]);
    assert tokens[..k] == Scan(s).tokens[..k];
    assert tokens[..k + 1] == tokens[..k] + [tokens[k]];
    ValuesAppend(tokens[..k], tokens[k]);
  }

  /**
    When a line splits, its words are the non-empty tokens. In every line the tokens stand in order and apart from
    each other; what stands before a token splits into just the tokens before it, and what stands before its end
    into those and the token itself.
  */
  lemma TokensAreWords(s: string)
    ensures Split(s).Success? ==> Split(s).value == NonEmpty(Values(Tokens(s)))
    ensures forall i | 0 <= i < |Tokens(s)| :: Tokens(s)[i].start <= Tokens(s)[i].end <= |s|
    ensures forall i, j | 0 <= i < j < |Tokens(s)| :: Tokens(s)[i].end < Tokens(s)[j].start
    ensures forall k | 0 <= k < |Tokens(s)| ::
              Split(s[..Tokens(s)[k].start]) == Success(NonEmpty(Values(Tokens(s)[..k])))
    ensures forall k | 0 <= k < |Tokens(s)| - 1 ::
              Split(s[..Tokens(s)[k].end]) == Success(NonEmpty(Values(Tokens(s)[..k + 1])))
  {
    TokensSplit(s);
    TokensApart(s);
    forall k | 0 <= k < |Tokens(s)|
      ensures Split(s[..Tokens(s)[k].start]) == Success(NonEmpty(Values(Tokens(s)[..k]))) {
      TokenStandsClear(s, k);
      ScanMatches(s[..Tokens(s)[k].start]);
    }
    forall k | 0 <= k < |Tokens(s)| - 1
      ensures Split(s[..Tokens(s)[k].end]) == Success(NonEmpty(Values(Tokens(s)[..k + 1]))) {
      TokenEndsClear(s, k);
    }
  }

  // ----- the edit -----

  datatype Context = Context(token: Token, needsLeadingSpace: bool)

  /** What is being completed: nothing yet, the only argument, or the last one after a recipient. */
  function SendPathCompletionContext(prefix: string, isRecipient: string -> bool): Option<Context> {
    var tokens := Tokens(prefix);
    if tokens == [] || tokens[0].value != "/send" then None
    else if |tokens| == 1 then Some(Context(Token("", |prefix|, |prefix|), true))
    else if |tokens| == 2 then Some(Context(tokens[1], false))
    else if isRecipient(tokens[1].value) then Some(Context(tokens[|tokens| - 1], false))
    else None
  }

  datatype Edit = Edit(start: nat, end: nat, replacement: string)

  function Lead(context: Context): string {
    if context.needsLeadingSpace then " " else ""
  }

  predicate EndsWithSlash(path: string) {
    path != "" && path[|path| - 1] == '/'
  }

  /** The edit for the only matching path; a folder is left open for what lies in it. */
  function OnlyMatch(context: Context, path: string): Edit {
    Edit(context.token.start, context.token.end,
         Lead(context) + (Escape(path) + (if EndsWithSlash(path) then "" else " ")))
  }

  /** The edit for several matching paths: what they have in common, if that is more than has been typed. */
  function ManyMatches(context: Context, common: string): Option<Edit> {
    if |common| > |context.token.value|
    then Some(Edit(context.token.start, context.token.end, Lead(context) + (Escape(common) + "")))
    else None
  }

  /** The line up to the cursor, once edited. */
  function Edited(prefix: string, edit: Edit): string
    requires edit.start <= edit.end <= |prefix|
  {
    prefix[..edit.start] + edit.replacement + prefix[edit.end..]
  }

  /** The tokens that stay in front of the one being completed. */
  function Earlier(prefix: string, context: Context): seq<string> {
    var tokens := Tokens(prefix);
    if context.needsLeadingSpace || tokens == [] then Values(tokens) else Values(tokens[..|tokens| - 1])
  }

  ghost predicate IsCommonPrefix(p: string, values: seq<string>) {
    forall i | 0 <= i < |values| :: p <= values[i]
  }

  /** The longest prefix shared by all the values; the empty one when there are none. */
  method CommonPrefix(values: seq<string>) returns (prefix: string)
    ensures values == [] ==> prefix == ""
    ensures IsCommonPrefix(prefix, values)
    ensures values != [] ==> forall p | IsCommonPrefix(p, values) :: p <= prefix
  {
    if values == [] {
      return "";
    }
    prefix := values[0];
    for i := 1 to |values|
      invariant IsCommonPrefix(prefix, values[..i])
      invariant forall p | IsCommonPrefix(p, values) :: p <= prefix
    {
      while !(prefix <= values[i])
        invariant IsCommonPrefix(prefix, values[..i])
        invariant forall p | IsCommonPrefix(p, values) :: p <= prefix
        decreases |prefix|
      {
        if prefix == "" {
          return "";
        }
        prefix := prefix[..|prefix| - 1];
      }
    }
    assert values[..|values|] == values;
  }

  lemma LastTokenReachesTheCursor(prefix: string)
    requires Tokens(prefix) != []
    ensures Tokens(prefix)[|Tokens(prefix)| - 1].end == |prefix|
  {
    ScanMatches(prefix);
  }

  lemma ContextFits(prefix: string, isRecipient: string -> bool)
    requires SendPathCompletionContext(prefix, isRecipient).Some?
    ensures var token := SendPathCompletionContext(prefix, isRecipient).value.token;
            token.start <= token.end == |prefix|
  {
    LastTokenReachesTheCursor(prefix);
    TokensApart(prefix);
  }

  /** The tail of an inserted path. */
  lemma EndOfInsertion(l: Lexer, path: string, tail: string)
    requires path != "" && tail in {"", " "}
    requires l == Lexer(l.words, path, None, false)
    ensures Finish(Lex(l, tail)) == Success(l.words + [path])
  {
    if tail == " " { LexSpace(l); }
  }

  lemma {:induction false} InsertAfter(before: string, words: seq<string>, path: string, tail: string)
    requires Lex(NoWords(), before) == Lexer(words, "", None, false)
    requires path != "" && tail in {"", " "}
    ensures Split(before + (Escape(path) + tail)) == Success(words + [path])
  {
    LexAppend(NoWords(), before, Escape(path) + tail);
    LexAppend(Lex(NoWords(), before), Escape(path), tail);
    LexEscaped(words, "", path);
    assert "" + path == path;
    EndOfInsertion(Lexer(words, path, None, false), path, tail);
  }

  /** An open quote is a quote. */
  lemma {:induction false} QuotesAreQuotes(s: string)
    ensures var l := Lex(NoWords(), s); l.quote.Some? ==> l.quote.value in {'\'', '"'}
  {
    if s != "" {
      QuotesAreQuotes(s[..|s| - 1]);
    }
  }

  /** The first word, finished or not, begins with some text. */
  predicate FirstBegins(l: Lexer, text: string) {
    if l.words == [] then text <= l.current else text <= l.words[0]
  }

  lemma {:induction false} FirstStillBegins(l: Lexer, s: string, text: string)
    requires FirstBegins(l, text) && text != ""
    ensures FirstBegins(Lex(l, s), text)
  {
    if s != "" {
      FirstStillBegins(l, s[..|s| - 1], text);
    }
  }

  lemma OneTokenLine(prefix: string)
    requires |Tokens(prefix)| == 1
    ensures var l := Lex(NoWords(), prefix); l.words == [] && l.current == Tokens(prefix)[0].value
  {
    ScanMatches(prefix);
    assert NonEmpty(Values([])) == [];
  }

  /** With a quote or an escape open, the space put in front of the path becomes part of the first word. */
  lemma InsertIntoOpenWord(prefix: string, more: string, words: seq<string>)
    requires |Tokens(prefix)| == 1 && Split(prefix).Failure? && words != []
    ensures Split(prefix + (" " + more)) != Success([Tokens(prefix)[0].value] + words)
  {
    var l, first := Lex(NoWords(), prefix), Tokens(prefix)[0].value;
    OneTokenLine(prefix);
    QuotesAreQuotes(prefix);
    LexAppend(NoWords(), prefix, " " + more);
    LexAppend(l, " ", more);
    assert " "[..0] == "" && Lex(l, "") == l;
    assert Lex(l, " ") == Next(l, ' ');
    assert FirstBegins(Next(l, ' '), first + " ");
    FirstStillBegins(Next(l, ' '), more, first + " ");
    if Split(prefix + (" " + more)).Success? {
      assert first + " " <= Split(prefix + (" " + more)).value[0];
    }
  }

  /** What is typed after a space is a new word. */
  lemma {:induction false} WordAfterSpace(line: string, words: seq<string>, more: string, tail: string)
    requires Split(line) == Success(words) && more != "" && tail in {"", " "}
    ensures Split(line + " " + (Escape(more) + tail)) == Success(words + [more])
  {
    LexAppend(NoWords(), line, " ");
    LexSpace(Lex(NoWords(), line));
    InsertAfter(line + " ", words, more, tail);
  }

  lemma SpaceGoesEitherWay(a: string, b: string)
    ensures a + " " + b == a + (" " + b)
  {
  }

  lemma {:induction false} InsertedWithSpace(prefix: string, path: string, tail: string)
    requires |Tokens(prefix)| == 1 && Tokens(prefix)[0].value != "" && path != "" && tail in {"", " "}
    ensures Split(prefix + (" " + (Escape(path) + tail))) == Success([Tokens(prefix)[0].value, path])
       <==> Split(prefix).Success?
  {
    var first := Tokens(prefix)[0].value;
    assert [first] + [path] == [first, path] && [] + [first] == [first];
    if Split(prefix).Success? {
      OneTokenLine(prefix);
      WordAfterSpace(prefix, [first], path, tail);
      SpaceGoesEitherWay(prefix, Escape(path) + tail);
    } else {
      InsertIntoOpenWord(prefix, Escape(path) + tail, [path]);
    }
  }

  lemma InsertedInPlace(prefix: string, path: string, tail: string)
    requires |Tokens(prefix)| >= 2 && path != "" && tail in {"", " "}
    ensures var tokens := Tokens(prefix);
            var n := |tokens| - 1;
            tokens[n].start <= |prefix| &&
            Split(prefix[..tokens[n].start] + (Escape(path) + tail)) == Success(NonEmpty(Values(tokens[..n])) + [path])
  {
    var tokens := Tokens(prefix);
    var n := |tokens| - 1;
    TokenStandsClear(prefix, n);
    ScanMatches(prefix[..tokens[n].start]);
    InsertAfter(prefix[..tokens[n].start], NonEmpty(Values(tokens[..n])), path, tail);
  }

  lemma EditAtTheCursor(prefix: string, start: nat, replacement: string)
    requires start <= |prefix|
    ensures Edited(prefix, Edit(start, |prefix|, replacement)) == prefix[..start] + replacement
  {
    assert prefix[|prefix|..] == "";
  }

  lemma JustTheCommand(prefix: string)
    requires |Tokens(prefix)| == 1
    ensures Tokens(prefix)[0].value == "/send" ==> NonEmpty(Values(Tokens(prefix))) == ["/send"]
  {
    assert Values(Tokens(prefix)) == [Tokens(prefix)[0].value];
    assert [Tokens(prefix)[0].value][..0] == [];
  }

  /** Inserting a path makes it the word after those that stay. */
  ghost predicate Resplits(prefix: string, context: Context, replacement: string, path: string) {
    && context.token.start <= context.token.end <= |prefix|
    && Split(Edited(prefix, Edit(context.token.start, context.token.end, replacement)))
         == Success(NonEmpty(Earlier(prefix, context)) + [path])
  }

  lemma CommandResplits(prefix: string, context: Context, path: string, tail: string)
    requires |Tokens(prefix)| == 1 && Tokens(prefix)[0].value == "/send" && path != "" && tail in {"", " "}
    requires context == Context(Token("", |prefix|, |prefix|), true)
    ensures Resplits(prefix, context, " " + (Escape(path) + tail), path) <==> Split(prefix).Success?
  {
    EditAtTheCursor(prefix, |prefix|, " " + (Escape(path) + tail));
    assert prefix[..|prefix|] == prefix;
    JustTheCommand(prefix);
    assert ["/send"] + [path] == ["/send", path];
    InsertedWithSpace(prefix, path, tail);
  }

  lemma ArgumentResplits(prefix: string, context: Context, path: string, tail: string)
    requires |Tokens(prefix)| >= 2 && path != "" && tail in {"", " "}
    requires context == Context(Tokens(prefix)[|Tokens(prefix)| - 1], false) && context.token.end == |prefix|
    ensures Resplits(prefix, context, "" + (Escape(path) + tail), path)
  {
    InsertedInPlace(prefix, path, tail);
    EditAtTheCursor(prefix, context.token.start, Escape(path) + tail);
    assert "" + (Escape(path) + tail) == Escape(path) + tail;
  }

  lemma EditResplits(prefix: string, isRecipient: string -> bool, path: string, tail: string)
    requires SendPathCompletionContext(prefix, isRecipient).Some? && path != "" && tail in {"", " "}
    ensures var context := SendPathCompletionContext(prefix, isRecipient).value;
            && context.token.start <= context.token.end <= |prefix|
            && (Resplits(prefix, context, Lead(context) + (Escape(path) + tail), path)
                <==> (context.needsLeadingSpace ==> Split(prefix).Success?))
  {
    ContextFits(prefix, isRecipient);
    var context := SendPathCompletionContext(prefix, isRecipient).value;
    if context.needsLeadingSpace {
      CommandResplits(prefix, context, path, tail);
    } else {
      ArgumentResplits(prefix, context, path, tail);
    }
  }

  /**
    After the edit the line up to the cursor splits into the words in front of the completed one and the path that was
    inserted; for a line that consists of the command alone this holds if and only if that line splits by itself.
  */
  lemma CompletionResplits(prefix: string, isRecipient: string -> bool, path: string)
    requires SendPathCompletionContext(prefix, isRecipient).Some? && path != ""
    ensures var context := SendPathCompletionContext(prefix, isRecipient).value;
            var edit := OnlyMatch(context, path);
            && edit.start <= edit.end <= |prefix|
            && (Split(Edited(prefix, edit)) == Success(NonEmpty(Earlier(prefix, context)) + [path])
                <==> (context.needsLeadingSpace ==> Split(prefix).Success?))
    ensures var context := SendPathCompletionContext(prefix, isRecipient).value;
            var edit := ManyMatches(context, path);
            edit.Some? ==>
              && edit.value.start <= edit.value.end <= |prefix|
              && (Split(Edited(prefix, edit.value)) == Success(NonEmpty(Earlier(prefix, context)) + [path])
                  <==> (context.needsLeadingSpace ==> Split(prefix).Success?))
  {
    EditResplits(prefix, isRecipient, path, "");
    EditResplits(prefix, isRecipient, path, " ");
  }

  /** When a completion is offered, and for what. */
  lemma WhenCompletionIsOffered(prefix: string, isRecipient: string -> bool)
    ensures var typed := Values(Tokens(prefix));
            var n, context := |typed|, SendPathCompletionContext(prefix, isRecipient);
            && (context.Some? <==> n > 0 && typed[0] == "/send" && (n > 2 ==> isRecipient(typed[1])))
            && (context.Some? ==>
                  && context.value.token.value == (if n == 1 then "" else typed[n - 1])
                  && (context.value.needsLeadingSpace <==> n == 1))
  {
  }

  lemma {:induction false} EscapeAppend(a: string, b: string)
    ensures Escape(a + b) == Escape(a) + Escape(b)
  {
    if b == "" {
      assert a + b == a;
    } else {
      assert (a + b)[..|a + b| - 1] == a + b[..|b| - 1];
      EscapeAppend(a, b[..|b| - 1]);
    }
  }

  lemma EditSplits(prefix: string, isRecipient: string -> bool, path: string)
    requires SendPathCompletionContext(prefix, isRecipient).Some? && path != ""
    requires SendPathCompletionContext(prefix, isRecipient).value.needsLeadingSpace ==> Split(prefix).Success?
    ensures var context := SendPathCompletionContext(prefix, isRecipient).value;
            && context.token.start <= context.token.end == |prefix|
            && Split(prefix[..context.token.start] + (Lead(context) + Escape(path)))
                 == Success(NonEmpty(Earlier(prefix, context)) + [path])
  {
    var context := SendPathCompletionContext(prefix, isRecipient).value;
    ContextFits(prefix, isRecipient);
    EditResplits(prefix, isRecipient, path, "");
    assert Escape(path) + "" == Escape(path);
    EditAtTheCursor(prefix, context.token.start, Lead(context) + Escape(path));
  }

  lemma WithoutTail(a: string, b: string)
    ensures a + (b + "") == a + b
  {
  }

  lemma Regrouped(a: string, b: string, c: string, d: string)
    ensures a + (b + (c + "")) + d == a + (b + (c + d))
    ensures a + (b + (c + " ")) + d == a + (b + c) + " " + d
  {
  }

  /** Typing after an edit that ends in the path itself goes on with it. */
  lemma {:induction false} TypedOn(before: string, lead: string, path: string, more: string, words: seq<string>)
    requires Split(before + (lead + Escape(path + more))) == Success(words + [path + more])
    ensures Split(before + (lead + (Escape(path) + "")) + Escape(more)) == Success(words + [path + more])
  {
    EscapeAppend(path, more);
    Regrouped(before, lead, Escape(path), Escape(more));
  }

  /** Typing after an edit that ends in a space does not. */
  lemma {:induction false} TypedAnew(before: string, lead: string, path: string, more: string, words: seq<string>)
    requires Split(before + (lead + Escape(path))) == Success(words + [path]) && more != ""
    ensures Split(before + (lead + (Escape(path) + " ")) + Escape(more)) == Success(words + [path, more])
  {
    WordAfterSpace(before + (lead + Escape(path)), words + [path], more, "");
    Regrouped(before, lead, Escape(path), Escape(more));
    WithoutTail(before + (lead + Escape(path)) + " ", Escape(more));
    assert words + [path] + [more] == words + [path, more];
  }

  /**
    What is typed next, once the only matching path has been put in: after a folder it goes on with the path, after a
    file it begins another word.
  */
  lemma {:induction false} TypingGoesOn(prefix: string, isRecipient: string -> bool, path: string, more: string)
    requires SendPathCompletionContext(prefix, isRecipient).Some? && path != "" && more != ""
    requires SendPathCompletionContext(prefix, isRecipient).value.needsLeadingSpace ==> Split(prefix).Success?
    ensures var context := SendPathCompletionContext(prefix, isRecipient).value;
            var edit := OnlyMatch(context, path);
            && edit.start <= edit.end <= |prefix|
            && Split(Edited(prefix, edit) + Escape(more)) ==
                 Success(NonEmpty(Earlier(prefix, context)) +
                         if path[|path| - 1] == '/' then [path + more] else [path, more])
  {
    var context := SendPathCompletionContext(prefix, isRecipient).value;
    ContextFits(prefix, isRecipient);
    var before, lead, words := prefix[..context.token.start], Lead(context), NonEmpty(Earlier(prefix, context));
    EditAtTheCursor(prefix, context.token.start, OnlyMatch(context, path).replacement);
    EditSplits(prefix, isRecipient, path);
    EditSplits(prefix, isRecipient, path + more);
    TypedOn(before, lead, path, more, words);
    TypedAnew(before, lead, path, more, words);
  }

  /** Among several paths that begin with what has been typed, completing adds to it exactly when they agree on more. */
  lemma SharedBeginningIsAdded(prefix: string, isRecipient: string -> bool, common: string, more: string)
    requires SendPathCompletionContext(prefix, isRecipient).Some? && common != "" && more != ""
    requires SendPathCompletionContext(prefix, isRecipient).value.needsLeadingSpace ==> Split(prefix).Success?
    requires SendPathCompletionContext(prefix, isRecipient).value.token.value <= common
    ensures var context := SendPathCompletionContext(prefix, isRecipient).value;
            var edit := ManyMatches(context, common);
            && (edit.None? <==> common == context.token.value)
            && (edit.Some? ==>
                  && edit.value.start <= edit.value.end <= |prefix|
                  && Split(Edited(prefix, edit.value) + Escape(more))
                       == Success(NonEmpty(Earlier(prefix, context)) + [common + more]))
  {
    var context := SendPathCompletionContext(prefix, isRecipient).value;
    ContextFits(prefix, isRecipient);
    var before, lead, words := prefix[..context.token.start], Lead(context), NonEmpty(Earlier(prefix, context));
    EditAtTheCursor(prefix, context.token.start, lead + (Escape(common) + ""));
    EditSplits(prefix, isRecipient, common + more);
    TypedOn(before, lead, common, more, words);
  }

  /** A quote that opens a line and is not closed takes in everything. */
  lemma {:induction false} QuotedScan(text: string)
    requires forall i | 0 <= i < |text| :: text[i] !in {'"', '\\'}
    ensures Scan("\"" + text) == Scanner([], text, Some(0), Some('"'), false)
  {
    var line := "\"" + text;
    if text == "" {
      assert line[..0] == "" && Scan("") == Scanner([], "", None, None, false);
      ScanOne(line, 0);
      assert line[..1] == line;
    } else {
      var n := |text| - 1;
      QuotedScan(text[..n]);
      assert line[..n + 1] == "\"" + text[..n] && line[..n + 2] == line && line[n + 1] == text[n];
      ScanOne(line, n + 1);
      assert text[..n] + [text[n]] == text;
    }
  }

  lemma OpenQuoteSwallows(text: string)
    requires text != "" && forall i | 0 <= i < |text| :: text[i] !in {'"', '\\'}
    ensures Tokens("\"" + text) == [Token(text, 0, 1 + |text|)] && Split("\"" + text) == Failure(UnterminatedQuote)
  {
    QuotedScan(text);
    ScanMatches("\"" + text);
  }

  /** A command whose opening quote is never closed is offered completions that it then swallows. */
  lemma OpenQuoteSpoilsCompletion()
    ensures var prefix := "\"/send";
            && SendPathCompletionContext(prefix, _ => false) == Some(Context(Token("", 6, 6), true))
            && Split(prefix) == Failure(UnterminatedQuote)
  {
    OpenQuoteSwallows("/send");
    assert "\"" + "/send" == "\"/send";
  }
}
