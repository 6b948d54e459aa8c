/**
 * How a shell turns a command line into the argument list of the program it
 * starts, for the constructs the aider command lines use: fields separated by
 * blanks, single quotes (section 2.2.2 of the POSIX.1-2017 Shell Command
 * Language: every character between two single quotes is literal, and a single
 * quote cannot occur inside them) and the backslash escape outside quotes
 * (section 2.2.1). Other shell syntax does not occur in the unquoted parts of
 * those command lines and is read here as ordinary characters.
 *
 * Also holds the single-quote escaping of e2b_aider_generator.py, the
 * `'\''` idiom that closes the quoted string, emits an escaped quote and
 * reopens the quoted string.
 */
module ShellWords {
  import opened Wrappers
  import opened Text

  datatype Mode = Plain | Quoted | Escaped

  /** Lexer state: finished fields, the field being read (if any) and the quoting mode. */
  datatype Lexer = Lexer(words: seq<string>, current: Option<string>, mode: Mode)

  function Pending(l: Lexer): string {
    if l.current.Some? then l.current.value else []
  }

  function Step(l: Lexer, c: char): Lexer {
    match l.mode
    case Quoted =>
      if c == '\'' then l.(mode := Plain) else l.(current := Some(Pending(l) + [c]))
    case Escaped =>
      Lexer(l.words, Some(Pending(l) + [c]), Plain)
    case Plain =>
      if c == ' ' then
        (if l.current.Some? then Lexer(l.words + [l.current.value], None, Plain) else l)
      else if c == '\'' then l.(current := Some(Pending(l)), mode := Quoted)
      else if c == '\\' then l.(current := Some(Pending(l)), mode := Escaped)
      else l.(current := Some(Pending(l) + [c]))
  }

  function Feed(l: Lexer, s: string): Lexer
    decreases |s|
  {
    if s == [] then l else Feed(Step(l, s[0]), s[1..])
  }

  /** The argument list a command line stands for; `None` for an unterminated quote or escape. */
  function Words(command: string): Option<seq<string>> {
    var l := Feed(Lexer([], None, Plain), command);
    if l.mode != Plain then None
    else if l.current.Some? then Some(l.words + [l.current.value])
    else Some(l.words)
  }

  lemma {:induction false} FeedAppend(l: Lexer, a: string, b: string)
    ensures Feed(l, a + b) == Feed(Feed(l, a), b)
    decreases |a|
  {
    if a == [] {
      assert a + b == b;
    } else {
      assert (a + b)[0] == a[0] && (a + b)[1..] == a[1..] + b;
      FeedAppend(Step(l, a[0]), a[1..], b);
    }
  }

  /** Inside single quotes every character but the quote itself is taken literally. */
  lemma {:induction false} FeedQuoted(w: seq<string>, x: string, t: string)
    requires '\'' !in t
    ensures Feed(Lexer(w, Some(x), Quoted), t) == Lexer(w, Some(x + t), Quoted)
    decreases |t|
  {
    if t == [] {
      assert x + t == x;
    } else {
      assert t[0] != '\'' && '\'' !in t[1..];
      var l := Lexer(w, Some(x), Quoted);
      assert Step(l, t[0]) == Lexer(w, Some(x + [t[0]]), Quoted);
      assert Feed(l, t) == Feed(Step(l, t[0]), t[1..]);
      FeedQuoted(w, x + [t[0]], t[1..]);
      assert x + [t[0]] + t[1..] == x + t;
    }
  }

  /** Characters that need no quoting. */
  predicate IsPlainText(t: string) {
    forall i | 0 <= i < |t| :: t[i] != ' ' && t[i] != '\'' && t[i] != '\\'
  }

  lemma {:induction false} FeedPlain(w: seq<string>, x: Option<string>, t: string)
    requires t != [] && IsPlainText(t)
    ensures Feed(Lexer(w, x, Plain), t) == Lexer(w, Some(Pending(Lexer(w, x, Plain)) + t), Plain)
    decreases |t|
  {
    var l := Lexer(w, x, Plain);
    var p := Pending(l);
    assert t[0] != ' ' && t[0] != '\'' && t[0] != '\\';
    assert Step(l, t[0]) == Lexer(w, Some(p + [t[0]]), Plain);
    assert Feed(l, t) == Feed(Step(l, t[0]), t[1..]);
    if |t| == 1 {
      assert t == [t[0]];
    } else {
      assert IsPlainText(t[1..]) by {
        forall i | 0 <= i < |t[1..]| ensures t[1..][i] != ' ' && t[1..][i] != '\'' && t[1..][i] != '\\' {
          assert t[1..][i] == t[i + 1];
        }
      }
      FeedPlain(w, Some(p + [t[0]]), t[1..]);
      assert Pending(Lexer(w, Some(p + [t[0]]), Plain)) == p + [t[0]];
      assert p + [t[0]] + t[1..] == p + t;
    }
  }

  // ---------------------------------------------------------------------------
  // Single-quote escaping

  /** `s.replace("'", "'\\''")`, the escaping of e2b_aider_generator.py. */
  function EscapeSingleQuotes(s: string): string {
    ReplaceAll(s, "'", "'\\''")
  }

  /** Escaping proceeds character by character. */
  lemma EscapeFirst(s: string)
    requires s != []
    ensures EscapeSingleQuotes(s)
         == (if s[0] == '\'' then "'\\''" else [s[0]]) + EscapeSingleQuotes(s[1..])
  {
    assert "'" <= s <==> s[0] == '\'';
  }

  /** Each quote becomes the four characters `'\''`; nothing else changes. */
  lemma {:induction false} EscapeLength(s: string)
    ensures |EscapeSingleQuotes(s)| == |s| + 3 * multiset(s)['\'']
    decreases |s|
  {
    if s != [] {
      EscapeFirst(s);
      EscapeLength(s[1..]);
      assert s == [s[0]] + s[1..];
      assert multiset(s) == multiset([s[0]]) + multiset(s[1..]);
    }
  }

  /** Replacing each `'\''` back by a quote recovers the original text. */
  lemma {:induction false} EscapeRoundTrip(s: string)
    ensures ReplaceAll(EscapeSingleQuotes(s), "'\\''", "'") == s
    decreases |s|
  {
    if s != [] {
      EscapeFirst(s);
      var rest := EscapeSingleQuotes(s[1..]);
      EscapeRoundTrip(s[1..]);
      if s[0] == '\'' {
        ReplaceAllLeading("'\\''", rest, "'");
        assert [s[0]] + s[1..] == s;
      } else {
        var e := [s[0]] + rest;
        assert e[0] != '\'';
        assert !("'\\''" <= e);
        assert e[1..] == rest;
        assert [s[0]] + s[1..] == s;
      }
    }
  }

  /** The shell reads an escaped text inside single quotes back as the text itself. */
  lemma {:induction false} FeedEscaped(w: seq<string>, x: string, s: string)
    ensures Feed(Lexer(w, Some(x), Quoted), EscapeSingleQuotes(s)) == Lexer(w, Some(x + s), Quoted)
    decreases |s|
  {
    if s == [] {
      assert x + s == x;
    } else {
      EscapeFirst(s);
      var rest := EscapeSingleQuotes(s[1..]);
      var l := Lexer(w, Some(x), Quoted);
      var head := if s[0] == '\'' then "'\\''" else [s[0]];
      FeedAppend(l, head, rest);
      assert Feed(l, head) == Lexer(w, Some(x + [s[0]]), Quoted);
      FeedEscaped(w, x + [s[0]], s[1..]);
      assert x + [s[0]] + s[1..] == x + s;
    }
  }

  // ---------------------------------------------------------------------------
  // Command lines built from tokens

  /** One argument as it is spelled on a command line. */
  datatype Token =
    | Bare(text: string)            // written as is: an option name or the program name
    | SingleQuoted(text: string)    // `'text'`
    | EscapedQuoted(text: string)   // `'` + EscapeSingleQuotes(text) + `'`

  function Spell(t: Token): string {
    match t
    case Bare(x) => x
    case SingleQuoted(x) => "'" + x + "'"
    case EscapedQuoted(x) => "'" + EscapeSingleQuotes(x) + "'"
  }

  /** Tokens that the shell reads back as exactly their text. */
  predicate SpellsItself(t: Token) {
    match t
    case Bare(x) => x != [] && IsPlainText(x)
    case SingleQuoted(x) => '\'' !in x
    case EscapedQuoted(_) => true
  }

  function Texts(ts: seq<Token>): seq<string> {
    if ts == [] then [] else [ts[0].text] + Texts(ts[1..])
  }

  lemma FeedToken(w: seq<string>, t: Token)
    requires SpellsItself(t)
    ensures Feed(Lexer(w, None, Plain), Spell(t)) == Lexer(w, Some(t.text), Plain)
  {
    var l := Lexer(w, None, Plain);
    match t
    case Bare(x) =>
      FeedPlain(w, None, x);
      assert [] + x == x;
    case SingleQuoted(x) =>
      FeedAppend(l, "'" + x, "'");
      FeedAppend(l, "'", x);
      FeedQuoted(w, [], x);
      assert [] + x == x;
    case EscapedQuoted(x) =>
      FeedAppend(l, "'" + EscapeSingleQuotes(x), "'");
      FeedAppend(l, "'", EscapeSingleQuotes(x));
      FeedEscaped(w, [], x);
      assert [] + x == x;
  }

  /** Any text, escaped and single-quoted, reaches the program as one argument, unchanged. */
  lemma EscapedTextIsOneArgument(s: string)
    ensures Words("'" + EscapeSingleQuotes(s) + "'") == Some([s])
  {
    FeedToken([], EscapedQuoted(s));
    assert [] + [s] == [s];
  }

  /** Each token followed by one blank: the left part of a command line built up piece by piece. */
  function Spaced(ts: seq<Token>): string {
    if ts == [] then [] else Spell(ts[0]) + " " + Spaced(ts[1..])
  }

  lemma {:induction false} SpacedAppend(a: seq<Token>, b: seq<Token>)
    ensures Spaced(a + b) == Spaced(a) + Spaced(b)
    decreases |a|
  {
    if a == [] {
      assert a + b == b;
    } else {
      assert (a + b)[0] == a[0] && (a + b)[1..] == a[1..] + b;
      SpacedAppend(a[1..], b);
      var x, y, z := Spell(a[0]) + " ", Spaced(a[1..]), Spaced(b);
      assert x + (y + z) == (x + y) + z;
    }
  }

  lemma SpacedWord(word: string)
    ensures Spaced([Bare(word)]) == word + " "
  {
    assert [Bare(word)][1..] == [];
    assert Spaced([Bare(word)]) == word + " " + [];
  }

  lemma SpacedSplit(a: seq<Token>, b: seq<Token>, ab: seq<Token>)
    requires ab == a + b
    ensures Spaced(ab) == Spaced(a) + Spaced(b)
  {
    SpacedAppend(a, b);
  }

  /** Three token groups spelled by three pieces. */
  lemma Assemble(t1: seq<Token>, t2: seq<Token>, t3: seq<Token>, p1: string, p2: string, p3: string)
    requires Spaced(t1) == p1 && Spaced(t2) == p2 && Spaced(t3) == p3
    ensures Spaced(t1 + t2 + t3) == p1 + p2 + p3
  {
    var u := t1 + t2;
    SpacedAppend(u, t3);
    SpacedAppend(t1, t2);
    var su := Spaced(u);
    assert su == p1 + p2;
  }

  /** After a token and its blank the lexer has finished the token's field and holds nothing pending. */
  lemma FeedTokenBlank(w: seq<string>, t: Token)
    requires SpellsItself(t)
    ensures Feed(Lexer(w, None, Plain), Spell(t) + " ") == Lexer(w + [t.text], None, Plain)
  {
    var l := Lexer(w, None, Plain);
    FeedToken(w, t);
    FeedAppend(l, Spell(t), " ");
    var after := Lexer(w, Some(t.text), Plain);
    assert Feed(after, " ") == Step(after, ' ');
  }

  lemma {:induction false} FeedSpaced(w: seq<string>, ts: seq<Token>)
    requires forall i | 0 <= i < |ts| :: SpellsItself(ts[i])
    ensures Feed(Lexer(w, None, Plain), Spaced(ts)) == Lexer(w + Texts(ts), None, Plain)
    decreases |ts|
  {
    if ts == [] {
      assert w + [] == w;
    } else {
      var t, rest := ts[0], ts[1..];
      assert forall i | 0 <= i < |rest| :: SpellsItself(rest[i]) by {
        forall i | 0 <= i < |rest| ensures SpellsItself(rest[i]) {
          assert rest[i] == ts[i + 1];
        }
      }
      FeedSpaced(w + [t.text], rest);
      FeedSpacedStep(w, t, Spaced(rest), Texts(rest));
      assert Spaced(ts) == Spell(t) + " " + Spaced(rest);
      assert Texts(ts) == [t.text] + Texts(rest);
    }
  }

  /** One more token in front of a spaced line whose words are known. */
  lemma FeedSpacedStep(w: seq<string>, t: Token, line: string, texts: seq<string>)
    requires SpellsItself(t)
    requires Feed(Lexer(w + [t.text], None, Plain), line) == Lexer(w + [t.text] + texts, None, Plain)
    ensures Feed(Lexer(w, None, Plain), Spell(t) + " " + line) == Lexer(w + ([t.text] + texts), None, Plain)
  {
    FeedTokenBlank(w, t);
    FeedAppend(Lexer(w, None, Plain), Spell(t) + " ", line);
    assert w + [t.text] + texts == w + ([t.text] + texts);
  }

  /**
   * A command line written as spaced tokens and a final bare word stands for
   * the tokens' texts followed by that word.
   */
  lemma WordsOfSpacedLine(ts: seq<Token>, last: string)
    requires forall i | 0 <= i < |ts| :: SpellsItself(ts[i])
    requires last != [] && IsPlainText(last)
    ensures Words(Spaced(ts) + last) == Some(Texts(ts) + [last])
  {
    FeedSpaced([], ts);
    FeedAppend(Lexer([], None, Plain), Spaced(ts), last);
    FeedPlain([] + Texts(ts), None, last);
    assert [] + Texts(ts) == Texts(ts);
    assert [] + last == last;
  }

  lemma {:induction false} TextsAppend(a: seq<Token>, b: seq<Token>)
    ensures Texts(a + b) == Texts(a) + Texts(b)
    decreases |a|
  {
    if a == [] {
      assert a + b == b;
    } else {
      assert (a + b)[0] == a[0] && (a + b)[1..] == a[1..] + b;
      TextsAppend(a[1..], b);
    }
  }

  lemma TextsPair(x: Token, y: Token)
    ensures Texts([x, y]) == [x.text, y.text]
  {
    assert [x, y][1..] == [y] && [y][1..] == [];
    assert Texts([y]) == [y.text] + Texts([]);
    assert Texts([x, y]) == [x.text] + Texts([y]);
  }
}
