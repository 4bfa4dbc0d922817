/** Arguments as bash words (`word`, `program` and `_checked` in executor/launch.py), and the words bash
    reads back: section 2.2 (quoting) and 2.3 (token recognition) of IEEE Std 1003.1-2017, Shell Command
    Language. */
module Words {
  import opened Wrappers

  // ----- the printer -----

  /** An argument: text, or a path whose leading `~` is the user's home. */
  datatype Argument = Text(text: string) | UserPath(text: string)

  /** The characters `shlex.quote` leaves as they are. */
  predicate Safe(c: char) {
    'a' <= c <= 'z' || 'A' <= c <= 'Z' || '0' <= c <= '9' || c in {'_', '@', '%', '+', '=', ':', ',', '.', '/', '-'}
  }

  predicate AllSafe(s: string) { forall i :: 0 <= i < |s| ==> Safe(s[i]) }

  /** A single quote, within single quotes. */
  function QuoteMark(): string { ['\'', '"', '\'', '"', '\''] }

  function Requoted(s: string): string {
    if s == [] then [] else (if s[0] == '\'' then QuoteMark() else [s[0]]) + Requoted(s[1..])
  }

  /** `shlex.quote` */
  function Quote(s: string): string {
    if s == [] then "''" else if AllSafe(s) then s else "'" + Requoted(s) + "'"
  }

  const HOME_PARAMETER := "${HOME:?HOME is not set}"

  function HomeWord(): string { ['"'] + HOME_PARAMETER + ['"'] }

  function LeftStripped(s: string): string {
    if s != [] && s[0] == '/' then LeftStripped(s[1..]) else s
  }

  predicate InHome(path: string) { |path| >= 2 && path[0] == '~' && path[1] == '/' }

  predicate Relative(path: string) { path != [] && path[0] != '/' }

  /** `word` */
  function Word(a: Argument): string {
    if a.UserPath? && a.text == "~" then HomeWord()
    else if a.UserPath? && InHome(a.text) then
      var rest := LeftStripped(a.text[2..]);
      if rest == [] then HomeWord() else HomeWord() + "/" + Quote(rest)
    else if a.UserPath? && Relative(a.text) then Quote("./" + a.text)
    else Quote(a.text)
  }

  function Spaced(argv: seq<Argument>): string
    requires argv != []
  {
    if |argv| == 1 then Word(argv[0]) else Word(argv[0]) + " " + Spaced(argv[1..])
  }

  const NUL: char := '\0'

  /** `program`'s line for an argv: None where it refuses it. */
  function Line(argv: seq<Argument>): Option<string> {
    if argv == [] || exists i :: 0 <= i < |argv| && NUL in argv[i].text then None
    else Some("exec " + Spaced(argv))
  }

  // ----- the shell -----

  /** A piece of a word: a literal character, or the value of HOME in double quotes. */
  datatype Piece = Literal(c: char) | Home

  type Field = seq<Piece>

  datatype Mode = Plain | Single | Double

  /** What an unquoted character may begin besides a literal: an operator, an expansion, a pattern, a
      comment or a list in braces. */
  predicate Special(c: char) {
    c in {'|', '&', ';', '<', '>', '(', ')', '$', '`', '\n', '*', '?', '[', '#', '~', '{', '}', '!', '^'}
  }

  function Begun(word: Option<Field>): Field {
    if word.Some? then word.value else []
  }

  function Prepend(word: Option<Field>, fields: Option<seq<Field>>): Option<seq<Field>> {
    if word.None? || fields.None? then fields else Some([word.value] + fields.value)
  }

  predicate StartsWith(s: string, start: string) { |start| <= |s| && s[..|start|] == start }

  /** The fields of a command line, `word` being the one begun; None where a quote is not closed, or where
      the line holds what this reader does not take literally. */
  function Fields(s: string, mode: Mode, word: Option<Field>): Option<seq<Field>>
    decreases |s|
  {
    if s == [] then if mode == Plain then Prepend(word, Some([])) else None
    else
      var c, rest := s[0], s[1..];
      match mode
      case Plain =>
        if c == ' ' || c == '\t' then Prepend(word, Fields(rest, Plain, None))
        else if c == '\'' then Fields(rest, Single, Some(Begun(word)))
        else if c == '"' then Fields(rest, Double, Some(Begun(word)))
        else if c == '\\' then
          if rest == [] || rest[0] == '\n' then None else Fields(rest[1..], Plain, Some(Begun(word) + [Literal(rest[0])]))
        else if Special(c) then None
        else Fields(rest, Plain, Some(Begun(word) + [Literal(c)]))
      case Single =>
        if c == '\'' then Fields(rest, Plain, word) else Fields(rest, Single, Some(Begun(word) + [Literal(c)]))
      case Double =>
        if c == '"' then Fields(rest, Plain, word)
        else if StartsWith(s, HOME_PARAMETER) then Fields(s[|HOME_PARAMETER|..], Double, Some(Begun(word) + [Home]))
        else if c == '$' || c == '`' then None
        else if c == '\\' && rest != [] && rest[0] in {'$', '`', '"', '\\'} then
          Fields(rest[1..], Double, Some(Begun(word) + [Literal(rest[0])]))
        else if c == '\\' && rest != [] && rest[0] == '\n' then Fields(rest[1..], Double, word)
        else Fields(rest, Double, Some(Begun(word) + [Literal(c)]))
  }

  function Literals(s: string): (f: Field)
    ensures |f| == |s|
  {
    seq(|s|, i requires 0 <= i < |s| => Literal(s[i]))
  }

  /** What a field is, with HOME's value. */
  function Expanded(f: Field, home: string): string {
    if f == [] then [] else (if f[0].Home? then home else [f[0].c]) + Expanded(f[1..], home)
  }

  // ----- reading back what was printed -----

  lemma NoLiterals()
    ensures Literals([]) == []
  {
  }

  lemma LiteralsStep(word: Field, s: string)
    requires s != []
    ensures word + [Literal(s[0])] + Literals(s[1..]) == word + Literals(s)
  {
  }

  lemma SafeStep(c: char, rest: string, word: Option<Field>)
    requires Safe(c)
    ensures Fields([c] + rest, Plain, word) == Fields(rest, Plain, Some(Begun(word) + [Literal(c)]))
  {
    assert ([c] + rest)[1..] == rest;
  }

  lemma SingleStep(c: char, rest: string, word: Field)
    ensures Fields([c] + rest, Single, Some(word)) == if c == '\'' then Fields(rest, Plain, Some(word))
                                                      else Fields(rest, Single, Some(word + [Literal(c)]))
  {
    assert ([c] + rest)[1..] == rest;
  }

  lemma {:induction false} SafeReads(s: string, rest: string, word: Field)
    requires AllSafe(s)
    ensures Fields(s + rest, Plain, Some(word)) == Fields(rest, Plain, Some(word + Literals(s)))
  {
    hide Fields, Safe, Literals;
    NoLiterals();
    if s == [] {
      assert s + rest == rest && word + [] == word;
    } else {
      assert Safe(s[0]);
      assert s + rest == [s[0]] + (s[1..] + rest);
      SafeStep(s[0], s[1..] + rest, Some(word));
      SafeReads(s[1..], rest, word + [Literal(s[0])]);
      LiteralsStep(word, s);
    }
  }

  lemma {:induction false} RequotedReads(s: string, rest: string, word: Field)
    ensures Fields(Requoted(s) + "'" + rest, Single, Some(word)) == Fields(rest, Plain, Some(word + Literals(s)))
  {
    hide Fields, Literals, QuoteMark;
    NoLiterals();
    if s == [] {
      assert Requoted(s) + "'" + rest == ['\''] + rest && word + [] == word;
      SingleStep('\'', rest, word);
    } else {
      var after := Requoted(s[1..]) + "'" + rest;
      RequotedReads(s[1..], rest, word + [Literal(s[0])]);
      LiteralsStep(word, s);
      if s[0] == '\'' {
        QuoteMarkReads(after, word);
        assert Requoted(s) + "'" + rest == QuoteMark() + after;
      } else {
        SingleStep(s[0], after, word);
        assert Requoted(s) + "'" + rest == [s[0]] + after;
      }
    }
  }

  lemma StartsAlike(s: string, start: string)
    requires s != [] && start != []
    ensures StartsWith(s, start) ==> s[0] == start[0]
  {
    assert StartsWith(s, start) ==> s[..|start|][0] == s[0];
  }

  /** The mark closes the quotes, gives one in double quotes, and opens them again. */
  lemma QuoteMarkReads(after: string, word: Field)
    ensures Fields(QuoteMark() + after, Single, Some(word)) == Fields(after, Single, Some(word + [Literal('\'')]))
  {
    var s := QuoteMark() + after;
    var s1, s2, s3, s4 := s[1..], s[2..], s[3..], s[4..];
    assert s1[1..] == s2 && s2[1..] == s3 && s3[1..] == s4 && s4[1..] == after;
    assert Fields(s, Single, Some(word)) == Fields(s1, Plain, Some(word));
    assert Fields(s1, Plain, Some(word)) == Fields(s2, Double, Some(word));
    assert s2[0] == '\'' != HOME_PARAMETER[0];
    StartsAlike(s2, HOME_PARAMETER);
    assert Fields(s2, Double, Some(word)) == Fields(s3, Double, Some(word + [Literal('\'')]));
    assert Fields(s3, Double, Some(word + [Literal('\'')])) == Fields(s4, Plain, Some(word + [Literal('\'')]));
  }

  lemma SafeWordReads(s: string, rest: string, word: Option<Field>)
    requires s != [] && AllSafe(s)
    ensures Fields(s + rest, Plain, word) == Fields(rest, Plain, Some(Begun(word) + Literals(s)))
  {
    hide Fields, Safe, Literals;
    assert Safe(s[0]);
    assert s + rest == [s[0]] + (s[1..] + rest);
    SafeStep(s[0], s[1..] + rest, word);
    SafeReads(s[1..], rest, Begun(word) + [Literal(s[0])]);
    LiteralsStep(Begun(word), s);
  }

  lemma OpenQuoteReads(inside: string, word: Option<Field>)
    ensures Fields("'" + inside, Plain, word) == Fields(inside, Single, Some(Begun(word)))
  {
    assert ("'" + inside)[1..] == inside;
  }

  /** Whatever a quoted text holds, and whatever it follows, it reads as itself. */
  lemma QuoteReads(s: string, rest: string, word: Option<Field>)
    ensures Fields(Quote(s) + rest, Plain, word) == Fields(rest, Plain, Some(Begun(word) + Literals(s)))
  {
    hide Fields, AllSafe, Requoted;
    if s != [] && AllSafe(s) {
      SafeWordReads(s, rest, word);
    } else {
      var inside := Requoted(s) + "'" + rest;
      NothingRequoted();
      assert Quote(s) + rest == "'" + inside;
      OpenQuoteReads(inside, word);
      RequotedReads(s, rest, Begun(word));
    }
  }

  lemma NothingRequoted()
    ensures Requoted([]) == []
  {
  }

  lemma HomeReads(rest: string, word: Option<Field>)
    ensures Fields(HomeWord() + rest, Plain, word) == Fields(rest, Plain, Some(Begun(word) + [Home]))
  {
    var line := HomeWord() + rest;
    var inside := line[1..];
    assert inside == HOME_PARAMETER + (['"'] + rest);
    assert inside[0] == HOME_PARAMETER[0] == '$';
    var after := inside[|HOME_PARAMETER|..];
    assert after == ['"'] + rest && after[1..] == rest;
    assert Fields(line, Plain, word) == Fields(inside, Double, Some(Begun(word)));
    assert Fields(inside, Double, Some(Begun(word))) == Fields(after, Double, Some(Begun(word) + [Home]));
  }

  /** The one field an argument is. */
  function Value(a: Argument): Field {
    if a.UserPath? && a.text == "~" then [Home]
    else if a.UserPath? && InHome(a.text) then
      var rest := LeftStripped(a.text[2..]);
      if rest == [] then [Home] else [Home] + Literals("/" + rest)
    else if a.UserPath? && Relative(a.text) then Literals("./" + a.text)
    else Literals(a.text)
  }

  lemma WordReads(a: Argument, after: string)
    ensures Fields(Word(a) + after, Plain, None) == Fields(after, Plain, Some(Value(a)))
  {
    hide Fields, Quote, HomeWord;
    assert Begun(None) + [Home] == [Home];
    if a.UserPath? && a.text == "~" {
      HomeReads(after, None);
    } else if a.UserPath? && InHome(a.text) {
      var rest := LeftStripped(a.text[2..]);
      if rest == [] {
        HomeReads(after, None);
      } else {
        assert Word(a) + after == HomeWord() + ("/" + (Quote(rest) + after));
        HomeReads("/" + (Quote(rest) + after), None);
        SafeReads("/", Quote(rest) + after, [Home]);
        QuoteReads(rest, after, Some([Home] + Literals("/")));
        assert [Home] + Literals("/") + Literals(rest) == [Home] + Literals("/" + rest);
      }
    } else if a.UserPath? && Relative(a.text) {
      QuoteReads("./" + a.text, after, None);
      assert [] + Literals("./" + a.text) == Literals("./" + a.text);
    } else {
      QuoteReads(a.text, after, None);
      assert [] + Literals(a.text) == Literals(a.text);
    }
  }

  function Values(argv: seq<Argument>): (fields: seq<Field>)
    ensures |fields| == |argv|
  {
    seq(|argv|, i requires 0 <= i < |argv| => Value(argv[i]))
  }

  lemma {:induction false} SpacedReads(argv: seq<Argument>)
    requires argv != []
    ensures Fields(Spaced(argv), Plain, None) == Some(Values(argv))
  {
    hide Word, Value;
    if |argv| == 1 {
      WordReads(argv[0], "");
      assert Word(argv[0]) + "" == Word(argv[0]);
      assert [Value(argv[0])] + [] == Values(argv);
    } else {
      var more := " " + Spaced(argv[1..]);
      assert Spaced(argv) == Word(argv[0]) + more;
      WordReads(argv[0], more);
      assert more[1..] == Spaced(argv[1..]);
      SpacedReads(argv[1..]);
      assert [Value(argv[0])] + Values(argv[1..]) == Values(argv);
    }
  }

  /** The shell reads back the argv: after `exec`, one field per argument, each its value. */
  lemma ArgvRoundTrip(argv: seq<Argument>)
    requires Line(argv).Some?
    ensures Fields(Line(argv).value, Plain, None) == Some([Literals("exec")] + Values(argv))
  {
    var line := Line(argv).value;
    var more := " " + Spaced(argv);
    assert line == "exec" + more;
    assert "exec"[1..] + more == line[1..];
    assert Begun(None) + [Literal('e')] == [Literal('e')];
    assert Fields(line, Plain, None) == Fields("xec" + more, Plain, Some([Literal('e')]));
    SafeReads("xec", more, [Literal('e')]);
    assert [Literal('e')] + Literals("xec") == Literals("exec");
    assert more[1..] == Spaced(argv);
    SpacedReads(argv);
  }

  /** An argv is refused exactly when it is empty or an argument holds a NUL. */
  lemma LineRefused(argv: seq<Argument>)
    ensures Line(argv).None? <==> argv == [] || exists i :: 0 <= i < |argv| && NUL in argv[i].text
  {
  }

  // ----- what the values are -----

  lemma {:induction false} LiteralsExpand(s: string, home: string)
    ensures Expanded(Literals(s), home) == s
  {
    if s != [] {
      LiteralsExpand(s[1..], home);
      assert Literals(s)[1..] == Literals(s[1..]);
    }
  }

  predicate AllSlashes(s: string) { forall i :: 0 <= i < |s| ==> s[i] == '/' }

  /** What is left is all that follows the leading slashes. */
  lemma {:induction false} LeftStrippedIs(s: string)
    ensures LeftStripped(s) == [] || LeftStripped(s)[0] != '/'
    ensures |LeftStripped(s)| <= |s|
    ensures AllSlashes(s[..|s| - |LeftStripped(s)|]) && s[|s| - |LeftStripped(s)|..] == LeftStripped(s)
  {
    if s != [] && s[0] == '/' {
      LeftStrippedIs(s[1..]);
      var n := |s| - |LeftStripped(s)|;
      assert s[..n] == ['/'] + s[1..][..n - 1];
      assert s[n..] == s[1..][n - 1..];
    }
  }

  /** What an argument comes to: text is itself; a path in the home is HOME, or HOME, a slash and what follows
      the path's own slashes, which no slash begins; any other relative path gains `./`, so that no path is
      taken for an option. */
  lemma ValueIs(a: Argument, home: string)
    ensures a.Text? ==> Expanded(Value(a), home) == a.text
    ensures a.UserPath? && a.text == "~" ==> Expanded(Value(a), home) == home
    ensures a.UserPath? && "~/" <= a.text ==>
              var rest := LeftStripped(a.text[2..]);
              && Expanded(Value(a), home) == home + (if rest == [] then "" else "/" + rest)
              && (rest == [] || rest[0] != '/') && |rest| <= |a.text| - 2
              && AllSlashes(a.text[1..|a.text| - |rest|]) && a.text[|a.text| - |rest|..] == rest
    ensures a.UserPath? && a.text != "~" && !("~/" <= a.text) ==>
              Expanded(Value(a), home) == (if a.text != "" && a.text[0] != '/' then "./" else "") + a.text
    ensures a.UserPath? && (home == [] || home[0] != '-') ==> Expanded(Value(a), home) == [] || Expanded(Value(a), home)[0] != '-'
  {
    hide Literals, LeftStripped;
    LiteralsExpand(a.text, home);
    LiteralsExpand("./" + a.text, home);
    assert Expanded([Home], home) == home by { assert [Home][1..] == []; }
    if a.UserPath? && InHome(a.text) {
      InHomeValue(a.text, home);
    }
  }

  lemma InHomeValue(path: string, home: string)
    requires InHome(path)
    ensures var rest := LeftStripped(path[2..]);
            && Expanded(Value(UserPath(path)), home) == home + (if rest == [] then "" else "/" + rest)
            && (rest == [] || Relative(rest)) && |rest| <= |path| - 2
            && AllSlashes(path[1..|path| - |rest|]) && path[|path| - |rest|..] == rest
  {
    hide Literals, LeftStripped;
    var rest, n := LeftStripped(path[2..]), |path| - |LeftStripped(path[2..])|;
    LeftStrippedIs(path[2..]);
    assert path[1..n] == ['/'] + path[2..][..n - 2];
    assert path[n..] == path[2..][n - 2..];
    LiteralsExpand("/" + rest, home);
    assert [Home][1..] == [];
    assert ([Home] + Literals("/" + rest))[1..] == Literals("/" + rest);
    assert home + [] == home;
  }
}
