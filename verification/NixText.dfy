/** Replacing and joining text as the generator does, and how Nix reads string literals, names and numbers. */
module NixText {

  /** `text.replace(c, substitute)` for a one-character pattern. */
  function ReplaceChar(text: string, c: char, substitute: string): string {
    if text == "" then "" else (if text[0] == c then substitute else [text[0]]) + ReplaceChar(text[1..], c, substitute)
  }

  /** `text.replace(a + b, substitute)` for a pattern of two different characters. */
  function ReplacePair(text: string, a: char, b: char, substitute: string): string {
    if text == "" then ""
    else if |text| >= 2 && text[0] == a && text[1] == b then substitute + ReplacePair(text[2..], a, b, substitute)
    else [text[0]] + ReplacePair(text[1..], a, b, substitute)
  }

  /** `separator.join(lines)` for the newline. */
  function JoinLines(lines: seq<string>): string {
    if lines == [] then "" else if |lines| == 1 then lines[0] else lines[0] + "\n" + JoinLines(lines[1..])
  }

  function Spaces(n: nat): string {
    if n == 0 then "" else " " + Spaces(n - 1)
  }

  function DigitChar(d: nat): char
    requires d < 10
  {
    "0123456789"[d]
  }

  function Digits(n: nat): string {
    if n < 10 then [DigitChar(n)] else Digits(n / 10) + [DigitChar(n % 10)]
  }

  predicate IsDigit(c: char) {
    '0' <= c <= '9'
  }

  predicate IsNameStart(c: char) {
    'a' <= c <= 'z' || 'A' <= c <= 'Z' || c == '_'
  }

  predicate IsNameChar(c: char) {
    IsNameStart(c) || IsDigit(c) || c == '\'' || c == '-'
  }

  predicate AllNameChars(s: string) {
    forall i :: 0 <= i < |s| ==> IsNameChar(s[i])
  }

  /** The key needs no quotes. */
  predicate Simple(key: string) {
    key != "" && IsNameStart(key[0]) && AllNameChars(key)
  }

  /** A letter of ASCII or an underscore, by its code; and what may follow it in a name. */
  predicate StartCode(code: int) {
    65 <= code < 91 || 97 <= code < 123 || code == 95
  }

  predicate NameCode(code: int) {
    StartCode(code) || 48 <= code < 58 || code == 39 || code == 45
  }

  /** Which keys need no quotes. */
  lemma SimpleExactly(key: string)
    ensures Simple(key) <==>
      |key| > 0 && StartCode(key[0] as int) && forall i :: 0 <= i < |key| ==> NameCode(key[i] as int)
  {
  }

  /** Reserved words of the Nix language, which are not attribute names. */
  predicate Keyword(name: string) {
    name in {"if", "then", "else", "assert", "with", "let", "in", "rec", "inherit"}
  }

  lemma {:induction false} ReplaceCharSplits(s: string, t: string, c: char, substitute: string)
    ensures ReplaceChar(s + t, c, substitute) == ReplaceChar(s, c, substitute) + ReplaceChar(t, c, substitute)
  {
    if s == "" {
      assert s + t == t;
    } else {
      ReplaceCharSplits(s[1..], t, c, substitute);
      assert (s + t)[1..] == s[1..] + t;
    }
  }

  /** Supported in a string: no control character other than newline, carriage return and tab. */
  predicate Supported(s: string) {
    forall i :: 0 <= i < |s| ==> s[i] as int >= 32 || s[i] in {'\n', '\r', '\t'}
  }

  /** The six replacements, in the order in which the generator chains them. */
  function ReplacementChain(s: string): string {
    var s1 := ReplaceChar(s, '\\', "\\\\");
    var s2 := ReplaceChar(s1, '"', "\\\"");
    var s3 := ReplacePair(s2, '$', '{', "\\${");
    var s4 := ReplaceChar(s3, '\n', "\\n");
    var s5 := ReplaceChar(s4, '\r', "\\r");
    ReplaceChar(s5, '\t', "\\t")
  }

  function EscapeChar(c: char): string {
    match c
    case '\\' => "\\\\"
    case '"' => "\\\""
    case '\n' => "\\n"
    case '\r' => "\\r"
    case '\t' => "\\t"
    case _ => [c]
  }

  /** The same in one pass from left to right, with `tail` after it. */
  function Escaped(s: string, tail: string): string {
    if s == "" then tail
    else if |s| >= 2 && s[0] == '$' && s[1] == '{' then "\\${" + Escaped(s[2..], tail)
    else EscapeChar(s[0]) + Escaped(s[1..], tail)
  }

  /** The first two replacements of the chain. */
  function Doubled(s: string): string {
    ReplaceChar(ReplaceChar(s, '\\', "\\\\"), '"', "\\\"")
  }

  /** The last three. */
  function Controls(s: string): string {
    ReplaceChar(ReplaceChar(ReplaceChar(s, '\n', "\\n"), '\r', "\\r"), '\t', "\\t")
  }

  lemma DoubledSplits(s: string, t: string)
    ensures Doubled(s + t) == Doubled(s) + Doubled(t)
  {
    ReplaceCharSplits(s, t, '\\', "\\\\");
    ReplaceCharSplits(ReplaceChar(s, '\\', "\\\\"), ReplaceChar(t, '\\', "\\\\"), '"', "\\\"");
  }

  lemma ControlsSplits(s: string, t: string)
    ensures Controls(s + t) == Controls(s) + Controls(t)
  {
    ReplaceCharSplits(s, t, '\n', "\\n");
    var s1, t1 := ReplaceChar(s, '\n', "\\n"), ReplaceChar(t, '\n', "\\n");
    ReplaceCharSplits(s1, t1, '\r', "\\r");
    ReplaceCharSplits(ReplaceChar(s1, '\r', "\\r"), ReplaceChar(t1, '\r', "\\r"), '\t', "\\t");
  }

  lemma ReplaceOne(c: char, d: char, substitute: string)
    ensures ReplaceChar([c], d, substitute) == if c == d then substitute else [c]
  {
    assert [c][1..] == "";
    assert ReplaceChar("", d, substitute) == "";
  }

  lemma ReplaceInTwo(a: char, b: char, d: char, substitute: string)
    requires d != a && d != b
    ensures ReplaceChar([a, b], d, substitute) == [a, b]
  {
    ReplaceOne(a, d, substitute);
    ReplaceOne(b, d, substitute);
    ReplaceCharSplits([a], [b], d, substitute);
    assert [a] + [b] == [a, b];
  }

  lemma DoubledChar(c: char)
    ensures Doubled([c]) == if c == '\\' then "\\\\" else if c == '"' then "\\\"" else [c]
  {
    ReplaceOne(c, '\\', "\\\\");
    if c == '\\' {
      ReplaceInTwo('\\', '\\', '"', "\\\"");
    } else {
      ReplaceOne(c, '"', "\\\"");
    }
  }

  lemma ControlsChar(c: char)
    ensures Controls([c]) == if c == '\n' then "\\n" else if c == '\r' then "\\r" else if c == '\t' then "\\t" else [c]
  {
    ReplaceOne(c, '\n', "\\n");
    if c == '\n' {
      ReplaceInTwo('\\', 'n', '\r', "\\r");
      ReplaceInTwo('\\', 'n', '\t', "\\t");
    } else {
      ReplaceOne(c, '\r', "\\r");
      if c == '\r' {
        ReplaceInTwo('\\', 'r', '\t', "\\t");
      } else {
        ReplaceOne(c, '\t', "\\t");
      }
    }
  }

  /** Text without the character in question comes through a pair replacement piece by piece. */
  lemma ReplacePairSplits(c: char, t: string, a: char, b: char, substitute: string)
    requires a != b && (c != a || t == "" || t[0] != b)
    ensures ReplacePair([c] + t, a, b, substitute) == [c] + ReplacePair(t, a, b, substitute)
  {
    assert ([c] + t)[1..] == t;
  }

  /** Doubling backslashes and quotes does not make or break a brace at the front. */
  lemma DoubledFront(t: string)
    ensures t == "" ==> Doubled(t) == ""
    ensures t != "" ==> Doubled(t) != "" && (Doubled(t)[0] == '{' <==> t[0] == '{')
  {
    if t != "" {
      assert t == [t[0]] + t[1..];
      DoubledSplits([t[0]], t[1..]);
      DoubledChar(t[0]);
    }
  }

  /** The replacement of `${` in the middle of the chain. */
  function Guarded(s: string): string {
    ReplacePair(s, '$', '{', "\\${")
  }

  /** A piece that goes through the three parts of the chain on its own. */
  lemma ChainPiece(piece: string, doubled: string, guarded: string, controls: string, t: string)
    requires Doubled(piece) == doubled && Controls(guarded) == controls
    requires Guarded(doubled + Doubled(t)) == guarded + Guarded(Doubled(t))
    ensures ReplacementChain(piece + t) == controls + ReplacementChain(t)
  {
    DoubledSplits(piece, t);
    ControlsSplits(guarded, Guarded(Doubled(t)));
  }

  lemma ControlsPair(a: char, b: char)
    requires a !in {'\n', '\r', '\t'} && b !in {'\n', '\r', '\t'}
    ensures Controls([a, b]) == [a, b]
  {
    ControlsChar(a);
    ControlsChar(b);
    ControlsSplits([a], [b]);
    assert [a] + [b] == [a, b];
  }

  lemma GuardedPair(a: char, b: char, t: string)
    requires a != '$' && b != '$'
    ensures Guarded([a, b] + t) == [a, b] + Guarded(t)
  {
    ReplacePairSplits(b, t, '$', '{', "\\${");
    ReplacePairSplits(a, [b] + t, '$', '{', "\\${");
    assert [a, b] + t == [a] + ([b] + t);
  }

  lemma GuardedBrace(t: string)
    ensures Guarded(['$', '{'] + t) == ['\\', '$', '{'] + Guarded(t)
  {
    assert (['$', '{'] + t)[2..] == t;
  }

  lemma ChainBrace(t: string)
    ensures ReplacementChain(['$', '{'] + t) == "\\${" + ReplacementChain(t)
  {
    DoubledSplits(['$'], ['{']);
    DoubledChar('$');
    DoubledChar('{');
    assert ['$'] + ['{'] == ['$', '{'];
    GuardedBrace(Doubled(t));
    ControlsPair('$', '{');
    ControlsChar('\\');
    ControlsSplits(['\\'], ['$', '{']);
    assert ['\\'] + ['$', '{'] == ['\\', '$', '{'];
    ChainPiece(['$', '{'], ['$', '{'], ['\\', '$', '{'], ['\\', '$', '{'], t);
  }

  lemma ChainStep(c: char, t: string)
    requires c != '$' || t == "" || t[0] != '{'
    ensures ReplacementChain([c] + t) == EscapeChar(c) + ReplacementChain(t)
  {
    DoubledChar(c);
    if c == '\\' || c == '"' {
      GuardedPair('\\', c, Doubled(t));
      ControlsPair('\\', c);
      ChainPiece([c], ['\\', c], ['\\', c], ['\\', c], t);
    } else {
      DoubledFront(t);
      ReplacePairSplits(c, Doubled(t), '$', '{', "\\${");
      ControlsChar(c);
      ChainPiece([c], [c], [c], EscapeChar(c), t);
    }
  }

  /** No replacement touches what an earlier one wrote: the chain of six is the single pass. */
  lemma {:induction false} ChainIsOnePass(s: string)
    ensures ReplacementChain(s) == Escaped(s, "")
  {
    if s == "" {
    } else if |s| >= 2 && s[0] == '$' && s[1] == '{' {
      ChainIsOnePass(s[2..]);
      ChainBrace(s[2..]);
      assert s == ['$', '{'] + s[2..];
    } else {
      ChainIsOnePass(s[1..]);
      ChainStep(s[0], s[1..]);
      assert s == [s[0]] + s[1..];
    }
  }

  lemma {:induction false} EscapedTail(s: string, tail: string, more: string)
    ensures Escaped(s, tail + more) == Escaped(s, tail) + more
  {
    if s == "" {
    } else if |s| >= 2 && s[0] == '$' && s[1] == '{' {
      EscapedTail(s[2..], tail, more);
    } else {
      EscapedTail(s[1..], tail, more);
    }
  }

  /** What reading a piece of Nix text gives: nothing, or a value and the text after it. */
  datatype Reading<T> = Unreadable | Read(value: T, rest: string)

  function Prepend(s: string, r: Reading<string>): Reading<string> {
    match r
    case Unreadable => Unreadable
    case Read(value, rest) => Read(s + value, rest)
  }

  function Unescape(c: char): char {
    match c
    case 'n' => '\n'
    case 'r' => '\r'
    case 't' => '\t'
    case _ => c
  }

  /** Reads the inside of a string literal up to and including the closing quote, by the string rule of
      the Nix lexer. A dollar sign takes the character after it along, unless that is a brace, a quote or
      a backslash; an interpolation makes the literal not a plain string. */
  function ReadString(s: string): (r: Reading<string>)
    ensures r.Read? ==> |r.rest| < |s|
  {
    if s == "" then Unreadable
    else if s[0] == '"' then Read("", s[1..])
    else if s[0] == '\\' then
      if |s| == 1 then Unreadable else Prepend([Unescape(s[1])], ReadString(s[2..]))
    else if s[0] == '$' && |s| >= 2 && s[1] == '{' then Unreadable
    else if s[0] == '$' && |s| >= 2 && s[1] !in {'"', '\\'} then Prepend([s[0], s[1]], ReadString(s[2..]))
    else Prepend([s[0]], ReadString(s[1..]))
  }

  lemma EscapedFront(s: string, tail: string)
    requires s != ""
    ensures s[0] == '$' && |s| >= 2 && s[1] == '{' ==> Escaped(s, tail) == ['\\', '$', '{'] + Escaped(s[2..], tail)
    ensures !(s[0] == '$' && |s| >= 2 && s[1] == '{') ==> Escaped(s, tail) == EscapeChar(s[0]) + Escaped(s[1..], tail)
  {
  }

  /** Reading an escaped string gives it back, and ends exactly at its closing quote. */
  lemma ReadEscaped(s: string, rest: string)
    ensures ReadString(Escaped(s, "\"" + rest)) == Read(s, rest)
  {
    assert ("\"" + rest)[1..] == rest;
    ReadStringBack(s, "\"" + rest, rest);
  }

  lemma {:induction false} ReadStringBack(s: string, tail: string, rest: string)
    requires tail != "" && tail[0] == '"' && ReadString(tail) == Read("", rest)
    ensures ReadString(Escaped(s, tail)) == Read(s, rest)
  {
    if s == "" {
    } else if s[0] != '$' {
      ReadStringBack(s[1..], tail, rest);
      EscapedFront(s, tail);
      ReadOne(s[0], Escaped(s[1..], tail), Read(s[1..], rest));
      assert s == [s[0]] + s[1..];
    } else if |s| >= 2 && s[1] == '{' {
      ReadStringBack(s[2..], tail, rest);
      EscapedFront(s, tail);
      ReadBrace(Escaped(s[2..], tail), s, rest);
    } else if FrontIsSpecial(s[1..]) {
      ReadStringBack(s[1..], tail, rest);
      SpecialFront(s, tail);
      ReadLoneDollar(Escaped(s[1..], tail), s, rest);
    } else {
      ReadStringBack(s[2..], tail, rest);
      PlainFront(s, tail);
      ReadDollarPair(Escaped(s[2..], tail), s, rest);
    }
  }

  /** Escaped, this starts with a quote or a backslash. */
  predicate FrontIsSpecial(s: string) {
    s == "" || |EscapeChar(s[0])| == 2 || (s[0] == '$' && |s| >= 2 && s[1] == '{')
  }

  lemma SpecialFront(s: string, tail: string)
    requires s != "" && s[0] == '$' && !(|s| >= 2 && s[1] == '{') && FrontIsSpecial(s[1..])
    requires tail != "" && tail[0] == '"'
    ensures Escaped(s, tail) == ['$'] + Escaped(s[1..], tail)
    ensures Escaped(s[1..], tail) != "" && Escaped(s[1..], tail)[0] in {'"', '\\'}
  {
    EscapedFront(s, tail);
    if |s| > 1 {
      EscapedFront(s[1..], tail);
    }
  }

  lemma PlainFront(s: string, tail: string)
    requires s != "" && s[0] == '$' && !(|s| >= 2 && s[1] == '{') && !FrontIsSpecial(s[1..])
    ensures |s| >= 2 && s[1] !in {'{', '"', '\\'}
    ensures Escaped(s, tail) == ['$'] + ([s[1]] + Escaped(s[2..], tail))
  {
    EscapedFront(s, tail);
    EscapedFront(s[1..], tail);
    assert s[1..][1..] == s[2..];
  }

  lemma ReadBrace(e: string, s: string, rest: string)
    requires |s| >= 2 && s[0] == '$' && s[1] == '{' && ReadString(e) == Read(s[2..], rest)
    ensures ReadString(['\\', '$', '{'] + e) == Read(s, rest)
  {
    ReadPlain('{', e, Read(s[2..], rest));
    ReadEscape('$', ['{'] + e, Read(['{'] + s[2..], rest));
    assert ['\\', '$', '{'] + e == ['\\', '$'] + (['{'] + e);
    assert s == ['$'] + (['{'] + s[2..]);
  }

  lemma ReadOne(c: char, t: string, r: Reading<string>)
    requires c != '$' && ReadString(t) == r && r.Read?
    ensures ReadString(EscapeChar(c) + t) == Read([c] + r.value, r.rest)
  {
    if |EscapeChar(c)| == 2 {
      ReadEscape(EscapeChar(c)[1], t, r);
    } else {
      ReadPlain(c, t, r);
    }
  }

  lemma ReadLoneDollar(e: string, s: string, rest: string)
    requires s != "" && s[0] == '$' && e != "" && e[0] in {'"', '\\'} && ReadString(e) == Read(s[1..], rest)
    ensures ReadString(['$'] + e) == Read(s, rest)
  {
    assert (['$'] + e)[1..] == e;
    assert s == ['$'] + s[1..];
  }

  lemma ReadDollarPair(e: string, s: string, rest: string)
    requires |s| >= 2 && s[0] == '$' && s[1] !in {'{', '"', '\\'} && ReadString(e) == Read(s[2..], rest)
    ensures ReadString(['$'] + ([s[1]] + e)) == Read(s, rest)
  {
    assert ['$'] + ([s[1]] + e) == ['$', s[1]] + e;
    assert (['$', s[1]] + e)[2..] == e;
    assert s == ['$', s[1]] + s[2..];
  }

  lemma ReadEscape(c: char, t: string, r: Reading<string>)
    requires ReadString(t) == r && r.Read?
    ensures ReadString(['\\', c] + t) == Read([Unescape(c)] + r.value, r.rest)
  {
    assert (['\\', c] + t)[2..] == t;
  }

  lemma ReadPlain(c: char, t: string, r: Reading<string>)
    requires c !in {'"', '\\', '$'} && ReadString(t) == r && r.Read?
    ensures ReadString([c] + t) == Read([c] + r.value, r.rest)
  {
    assert ([c] + t)[1..] == t;
  }

  /** The string in front of a newline replacement: escaping left no raw newline to replace. */
  lemma {:induction false} EscapedKeepsLines(s: string, tail: string, substitute: string)
    ensures ReplaceChar(Escaped(s, tail), '\n', substitute) == Escaped(s, ReplaceChar(tail, '\n', substitute))
  {
    if s == "" {
    } else if |s| >= 2 && s[0] == '$' && s[1] == '{' {
      EscapedKeepsLines(s[2..], tail, substitute);
      LineFree("\\${", Escaped(s[2..], tail), substitute);
    } else {
      EscapedKeepsLines(s[1..], tail, substitute);
      LineFree(EscapeChar(s[0]), Escaped(s[1..], tail), substitute);
    }
  }

  lemma {:induction false} LineFree(s: string, tail: string, substitute: string)
    requires forall i :: 0 <= i < |s| ==> s[i] != '\n'
    ensures ReplaceChar(s + tail, '\n', substitute) == s + ReplaceChar(tail, '\n', substitute)
  {
    if s == "" {
      assert s + tail == tail;
    } else {
      LineFree(s[1..], tail, substitute);
      assert (s + tail)[1..] == s[1..] + tail;
      assert s == [s[0]] + s[1..];
    }
  }

  lemma {:induction false} SpacesFree(n: nat)
    ensures forall i :: 0 <= i < |Spaces(n)| ==> Spaces(n)[i] == ' '
  {
    if n > 0 { SpacesFree(n - 1); }
  }

  function SkipSpace(s: string): (r: string)
    ensures |r| <= |s|
  {
    if s != "" && s[0] in {' ', '\n', '\t', '\r'} then SkipSpace(s[1..]) else s
  }

  lemma {:induction false} SkipSpaces(n: nat, t: string)
    ensures SkipSpace(Spaces(n) + t) == SkipSpace(t)
  {
    if n == 0 {
      assert Spaces(0) + t == t;
    } else {
      SkipSpaces(n - 1, t);
      assert (Spaces(n) + t)[1..] == Spaces(n - 1) + t;
    }
  }

  /** A new line and its indentation are skipped. */
  lemma SkipLine(n: nat, t: string)
    ensures SkipSpace("\n" + Spaces(n) + t) == SkipSpace(t)
  {
    SkipSpaces(n, t);
    assert ("\n" + Spaces(n) + t)[1..] == Spaces(n) + t;
  }

  /** Splits off the longest name. */
  function ReadName(s: string): (r: (string, string))
    ensures r.0 + r.1 == s
  {
    if s != "" && IsNameChar(s[0]) then
      var (name, rest) := ReadName(s[1..]);
      ([s[0]] + name, rest)
    else ("", s)
  }

  lemma {:induction false} ReadNameBack(name: string, rest: string)
    requires AllNameChars(name) && (rest != "" ==> !IsNameChar(rest[0]))
    ensures ReadName(name + rest) == (name, rest)
  {
    if name == "" {
      assert name + rest == rest;
    } else {
      ReadNameBack(name[1..], rest);
      assert (name + rest)[1..] == name[1..] + rest;
      assert name == [name[0]] + name[1..];
    }
  }

  /** Reads decimal digits as far as they go, after the number read so far. */
  function ReadNat(s: string, sofar: nat): (r: (nat, string))
    ensures |r.1| <= |s|
  {
    if s != "" && IsDigit(s[0]) then ReadNat(s[1..], sofar * 10 + (s[0] as int - '0' as int)) else (sofar, s)
  }

  lemma ReadDigit(d: nat, rest: string, sofar: nat)
    requires d < 10
    ensures ReadNat([DigitChar(d)] + rest, sofar) == ReadNat(rest, sofar * 10 + d)
  {
    assert ([DigitChar(d)] + rest)[1..] == rest;
  }

  lemma {:induction false} ReadDigits(n: nat, rest: string)
    ensures Digits(n) != "" && IsDigit(Digits(n)[0])
    ensures ReadNat(Digits(n) + rest, 0) == ReadNat(rest, n)
  {
    if n < 10 {
      ReadDigit(n, rest, 0);
    } else {
      var last := [DigitChar(n % 10)];
      ReadDigits(n / 10, last + rest);
      assert Digits(n) + rest == Digits(n / 10) + (last + rest);
      ReadDigit(n % 10, rest, n / 10);
    }
  }

  lemma {:induction false} DigitsFree(n: nat)
    ensures forall i :: 0 <= i < |Digits(n)| ==> IsDigit(Digits(n)[i])
  {
    if n >= 10 { DigitsFree(n / 10); }
  }
}
