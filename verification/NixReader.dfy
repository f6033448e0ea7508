/** How Nix reads the expressions that the generator writes, and the round trip. */
module NixReader {
  import opened Basics
  import opened NixText
  import opened NixGenerator

  /** Integer literals above this are errors in Nix. */
  const NIX_INT_MAX := 9223372036854775807

  function ReadNumber(s: string, sign: int): Reading<Value> {
    var (n, rest) := ReadNat(s, 0);
    if n <= NIX_INT_MAX then Read(Int(sign * n), rest) else Unreadable
  }

  function ReadWord(s: string): Reading<Value> {
    var (name, rest) := ReadName(s);
    match name
    case "null" => Read(Null, rest)
    case "true" => Read(Bool(true), rest)
    case "false" => Read(Bool(false), rest)
    case _ => Unreadable
  }

  /** Reads one value. A minus sign is an operator, which a list element cannot start with. */
  function ReadExpr(s: string, minus: bool): (r: Reading<Value>)
    ensures r.Read? ==> |r.rest| < |s|
    decreases |s|, 1
  {
    var t := SkipSpace(s);
    if t == "" then Unreadable
    else if t[0] == '"' then
      (match ReadString(t[1..])
       case Unreadable => Unreadable
       case Read(value, rest) => Read(Str(value), rest))
    else if t[0] == '[' then
      (match ReadItems(t[1..])
       case Unreadable => Unreadable
       case Read(items, rest) => Read(List(items), rest))
    else if t[0] == '{' then
      (match ReadFields(t[1..], map[])
       case Unreadable => Unreadable
       case Read(fields, rest) => Read(Attrs(fields), rest))
    else ReadSimple(t, minus)
  }

  /** Reads a number or one of the three constants. */
  function ReadSimple(t: string, minus: bool): (r: Reading<Value>)
    requires t != ""
    ensures r.Read? ==> |r.rest| < |t|
  {
    if IsDigit(t[0]) then
      assert ReadNat(t, 0) == ReadNat(t[1..], t[0] as int - '0' as int);
      ReadNumber(t, 1)
    else if t[0] == '-' then
      if minus && |t| > 1 && IsDigit(t[1]) then ReadNumber(t[1..], -1) else Unreadable
    else ReadWord(t)
  }

  function ReadItems(s: string): (r: Reading<seq<Value>>)
    ensures r.Read? ==> |r.rest| < |s|
    decreases |s|, 2
  {
    var t := SkipSpace(s);
    if t == "" then Unreadable
    else if t[0] == ']' then Read([], t[1..])
    else
      match ReadExpr(t, false)
      case Unreadable => Unreadable
      case Read(item, rest) =>
        (match ReadItems(rest)
         case Unreadable => Unreadable
         case Read(items, end) => Read([item] + items, end))
  }

  /** Reads an attribute name: a name that is not reserved, or a string. */
  function ReadKey(t: string): (r: Reading<string>)
    requires t != ""
    ensures r.Read? ==> |r.rest| < |t|
  {
    if t[0] == '"' then ReadString(t[1..])
    else if IsNameStart(t[0]) then
      var (name, rest) := ReadName(t);
      if Keyword(name) then Unreadable else Read(name, rest)
    else Unreadable
  }

  /** Expects a sign, after white space. */
  function Expect(s: string, c: char): (r: Reading<()>)
    ensures r.Read? ==> |r.rest| < |s|
  {
    var t := SkipSpace(s);
    if t != "" && t[0] == c then Read((), t[1..]) else Unreadable
  }

  /** Reads the attributes up to the closing brace; an attribute may not be defined twice. */
  function ReadFields(s: string, sofar: map<string, Value>): (r: Reading<map<string, Value>>)
    ensures r.Read? ==> |r.rest| < |s|
    decreases |s|, 2
  {
    var t := SkipSpace(s);
    if t == "" then Unreadable
    else if t[0] == '}' then Read(sofar, t[1..])
    else
      match ReadField(t)
      case Unreadable => Unreadable
      case Read((key, value), rest) =>
        if key in sofar then Unreadable else ReadFields(rest, sofar[key := value])
  }

  function ReadField(t: string): (r: Reading<(string, Value)>)
    requires t != ""
    ensures r.Read? ==> |r.rest| < |t|
    decreases |t|, 0
  {
    match ReadKey(t)
    case Unreadable => Unreadable
    case Read(key, rest) =>
      match Expect(rest, '=')
      case Unreadable => Unreadable
      case Read(_, body) =>
        match ReadExpr(body, true)
        case Unreadable => Unreadable
        case Read(value, end) =>
          match Expect(end, ';')
          case Unreadable => Unreadable
          case Read(_, after) => Read((key, value), after)
  }

  /** Nix can read what the generator writes: no integer out of range, no negative list element and no
      reserved word as a bare attribute name, at any depth. */
  predicate Readable(v: Value, minus: bool)
    decreases v, 1
  {
    match v
    case Int(n) => -NIX_INT_MAX <= n <= NIX_INT_MAX && (n >= 0 || minus)
    case List(items) => forall item <- items :: Readable(item, false)
    case Attrs(fields) => forall k <- fields :: FieldReadable(v, k)
    case _ => true
  }

  predicate FieldReadable(v: Value, key: string)
    requires v.Attrs? && key in v.fields
    decreases v, 0
  {
    !Keyword(key) && Readable(v.fields[key], true)
  }

  /** The text after a value cannot be taken for more of it. */
  predicate Delimited(tail: string) {
    tail != "" ==> !IsNameChar(tail[0])
  }

  function Outcome<T>(ok: bool, value: T, rest: string): Reading<T> {
    if ok then Read(value, rest) else Unreadable
  }

  lemma WordBack(word: string, v: Value, tail: string, minus: bool)
    requires Delimited(tail)
    requires (word, v) in {("null", Null), ("true", Bool(true)), ("false", Bool(false))}
    ensures ReadExpr(word + tail, minus) == Read(v, tail)
  {
    ReadNameBack(word, tail);
    assert SkipSpace(word + tail) == word + tail;
  }

  lemma DigitsBack(n: nat, tail: string, sign: int)
    requires Delimited(tail)
    ensures ReadNumber(Digits(n) + tail, sign) == Outcome(n <= NIX_INT_MAX, Int(sign * n), tail)
  {
    ReadDigits(n, tail);
    assert ReadNat(tail, n) == (n, tail);
  }

  lemma SimpleExpr(t: string, minus: bool)
    requires t != "" && t[0] !in {' ', '\n', '\t', '\r', '"', '[', '{'}
    ensures ReadExpr(t, minus) == ReadSimple(t, minus)
  {
    assert SkipSpace(t) == t;
  }

  lemma NumberBack(n: int, tail: string, minus: bool)
    requires Delimited(tail)
    ensures ReadExpr(IntText(n) + tail, minus) == Outcome(Readable(Int(n), minus), Int(n), tail)
  {
    var abs := if n < 0 then -n else n;
    var digits := Digits(abs) + tail;
    ReadDigits(abs, "");
    DigitsBack(abs, tail, if n < 0 then -1 else 1);
    if n < 0 {
      assert IntText(n) + tail == "-" + digits && ("-" + digits)[1..] == digits;
      SimpleExpr("-" + digits, minus);
    } else {
      SimpleExpr(digits, minus);
    }
  }

  lemma StringBack(s: string, tail: string, minus: bool)
    ensures ReadExpr("\"" + Escaped(s, "\"" + tail), minus) == Read(Str(s), tail)
  {
    ReadEscaped(s, tail);
    var text := "\"" + Escaped(s, "\"" + tail);
    assert text[1..] == Escaped(s, "\"" + tail);
    assert SkipSpace(text) == text;
  }

  /** A written value starts where it is written, and not like the end of a list. */
  lemma StartsValue(v: Value, indent: nat, tail: string)
    ensures Written(v, indent, tail) != "" && Written(v, indent, tail)[0] !in {' ', '\n', '\t', '\r', ']', '}', 'p'}
  {
    if v.Int? {
      ReadDigits(if v.n < 0 then -v.n else v.n, "");
    }
  }

  /** Reading a written value gives it back exactly when it is readable. */
  lemma {:induction false} ReadBack(v: Value, indent: nat, tail: string, minus: bool)
    requires Delimited(tail)
    ensures ReadExpr(Written(v, indent, tail), minus) == Outcome(Readable(v, minus), v, tail)
    decreases v, 1, 0
  {
    match v
    case Null => WordBack("null", v, tail, minus);
    case Bool(b) => WordBack(if b then "true" else "false", v, tail, minus);
    case Int(n) => NumberBack(n, tail, minus);
    case Str(s) => StringBack(s, tail, minus);
    case List(items) => ListBack(v, indent, tail, minus);
    case Attrs(fields) => AttrsBack(v, indent, tail, minus);
  }

  lemma ReadList(s: string, minus: bool)
    ensures ReadExpr("[" + s, minus) == match ReadItems(s)
      case Unreadable => Unreadable
      case Read(items, rest) => Read(List(items), rest)
  {
    assert ("[" + s)[1..] == s;
    assert SkipSpace("[" + s) == "[" + s;
  }

  lemma ReadAttrs(s: string, minus: bool)
    ensures ReadExpr("{" + s, minus) == match ReadFields(s, map[])
      case Unreadable => Unreadable
      case Read(fields, rest) => Read(Attrs(fields), rest)
  {
    assert ("{" + s)[1..] == s;
    assert SkipSpace("{" + s) == "{" + s;
  }

  lemma EmptyListBack(tail: string, minus: bool)
    ensures ReadExpr("[ ]" + tail, minus) == Read(List([]), tail)
  {
    EndOfItems(1, "]" + tail);
    ReadList(" " + ("]" + tail), minus);
    assert Spaces(1) == " ";
    assert "[ ]" + tail == "[" + (" " + ("]" + tail));
  }

  lemma {:induction false} ListBack(v: Value, indent: nat, tail: string, minus: bool)
    requires v.List?
    ensures ReadExpr(Written(v, indent, tail), minus) == Outcome(Readable(v, minus), v, tail)
    decreases v, 0, 0
  {
    if v.items == [] {
      EmptyListBack(tail, minus);
    } else {
      var end := "\n" + Spaces(indent) + ("]" + tail);
      SkipLine(indent, "]" + tail);
      ItemsBack(v.items, indent + 2, end, tail);
      ReadList(WrittenItems(v.items, indent + 2, end), minus);
    }
  }

  lemma EndOfItems(n: nat, t: string)
    requires t != "" && t[0] == ']'
    ensures ReadItems(Spaces(n) + t) == Read([], t[1..])
  {
    SkipSpaces(n, t);
  }

  lemma {:induction false} ItemsBack(items: seq<Value>, indent: nat, end: string, tail: string)
    requires SkipSpace(end) == "]" + tail && Delimited(end)
    ensures ReadItems(WrittenItems(items, indent, end)) ==
      Outcome(forall item <- items :: Readable(item, false), items, tail)
    decreases items, 0, 0
  {
    if items == [] {
      assert ("]" + tail)[1..] == tail;
    } else {
      var after := WrittenItems(items[1..], indent, end);
      var text := Written(items[0], indent, after);
      SkipLine(indent, text);
      StartsValue(items[0], indent, after);
      assert SkipSpace(text) == text;
      ReadBack(items[0], indent, after, false);
      ItemsBack(items[1..], indent, end, tail);
      assert items == [items[0]] + items[1..];
      assert (forall item <- items :: Readable(item, false)) <==>
        Readable(items[0], false) && forall item <- items[1..] :: Readable(item, false);
    }
  }

  /** The attributes so far with those of the keys added. */
  function WithFields(v: Value, keys: seq<string>, sofar: map<string, Value>): map<string, Value>
    requires v.Attrs? && forall k <- keys :: k in v.fields
  {
    if keys == [] then sofar else WithFields(v, keys[1..], sofar[keys[0] := v.fields[keys[0]]])
  }

  lemma {:induction false} AllFields(v: Value, keys: seq<string>, sofar: map<string, Value>)
    requires v.Attrs? && (forall k <- keys :: k in v.fields)
    requires forall k <- v.fields :: k in keys || k in sofar
    requires forall k <- sofar :: k in v.fields && sofar[k] == v.fields[k]
    ensures WithFields(v, keys, sofar) == v.fields
  {
    if keys != [] {
      assert keys == [keys[0]] + keys[1..];
      AllFields(v, keys[1..], sofar[keys[0] := v.fields[keys[0]]]);
    }
  }

  lemma EndOfFields(n: nat, t: string, sofar: map<string, Value>)
    requires t != "" && t[0] == '}'
    ensures ReadFields(Spaces(n) + t, sofar) == Read(sofar, t[1..])
  {
    SkipSpaces(n, t);
  }

  lemma {:induction false} AttrsBack(v: Value, indent: nat, tail: string, minus: bool)
    requires v.Attrs?
    ensures ReadExpr(Written(v, indent, tail), minus) == Outcome(Readable(v, minus), v, tail)
    decreases v, 0, |v.fields| + 3
  {
    if v.fields == map[] {
      EndOfFields(1, "}" + tail, map[]);
      ReadAttrs(" " + ("}" + tail), minus);
      assert Spaces(1) == " ";
      assert "{ }" + tail == "{" + (" " + ("}" + tail));
    } else {
      var end := "\n" + Spaces(indent) + ("}" + tail);
      SkipLine(indent, "}" + tail);
      AllFieldsBack(v, indent + 2, end, tail);
      KeysCover(v);
      ReadAttrs(WrittenFields(v, SortedKeys(v.fields.Keys), indent + 2, end), minus);
    }
  }

  lemma {:induction false} AllFieldsBack(v: Value, indent: nat, end: string, tail: string)
    requires v.Attrs? && SkipSpace(end) == "}" + tail
    ensures ReadFields(WrittenFields(v, SortedKeys(v.fields.Keys), indent, end), map[]) ==
      Outcome(FieldsReadable(v, SortedKeys(v.fields.Keys)), v.fields, tail)
    decreases v, 0, |v.fields| + 2
  {
    var keys := SortedKeys(v.fields.Keys);
    SortedKeysCount(v.fields.Keys);
    FieldsBack(v, keys, indent, end, tail, map[]);
    AllFields(v, keys, map[]);
  }

  lemma KeysCover(v: Value)
    requires v.Attrs?
    ensures forall minus :: Readable(v, minus) == FieldsReadable(v, SortedKeys(v.fields.Keys))
  {
  }

  lemma {:induction false} SortedKeysCount(keys: set<string>)
    ensures |SortedKeys(keys)| == |keys|
    decreases |keys|
  {
    if keys != {} {
      SortedKeysCount(keys - {SortedKeys(keys)[0]});
    }
  }

  lemma SimpleKeyBack(key: string, tail: string)
    requires Delimited(tail) && Simple(key)
    ensures ReadKey(key + tail) == Outcome(!Keyword(key), key, tail)
  {
    ReadNameBack(key, tail);
  }

  lemma QuotedKeyBack(key: string, tail: string)
    ensures ReadKey("\"" + Escaped(key, "\"" + tail)) == Read(key, tail)
  {
    ReadEscaped(key, tail);
    assert ("\"" + Escaped(key, "\"" + tail))[1..] == Escaped(key, "\"" + tail);
  }

  lemma KeywordsAreSimple(key: string)
    requires Keyword(key)
    ensures Simple(key)
  {
  }

  lemma KeyBack(key: string, tail: string)
    requires Delimited(tail)
    ensures WrittenKey(key, tail) != "" && WrittenKey(key, tail)[0] !in {' ', '\n', '\t', '\r', '}'}
    ensures ReadKey(WrittenKey(key, tail)) == Outcome(!Keyword(key), key, tail)
  {
    if Simple(key) {
      SimpleKeyBack(key, tail);
    } else {
      QuotedKeyBack(key, tail);
      if Keyword(key) { KeywordsAreSimple(key); }
    }
  }

  lemma ReadFieldParts(text: string, key: string, keyOk: bool, value: string, v: Value, valueOk: bool, after: string)
    requires text != "" && ReadKey(text) == Outcome(keyOk, key, " = " + value)
    requires ReadExpr(value, true) == Outcome(valueOk, v, ";" + after)
    ensures ReadField(text) == Outcome(keyOk && valueOk, (key, v), after)
  {
    assert " = " + value == " " + ("=" + (" " + value));
    ExpectHere(" " + ("=" + (" " + value)), '=', " " + value);
    ExpectHere(";" + after, ';', after);
    assert SkipSpace(" " + value) == SkipSpace(value) by { assert (" " + value)[1..] == value; }
  }

  lemma ExpectHere(s: string, c: char, rest: string)
    requires c in {'=', ';'} && (s == [c] + rest || s == " " + ([c] + rest))
    ensures Expect(s, c) == Read((), rest)
  {
    assert ([c] + rest)[1..] == rest;
    assert (" " + ([c] + rest))[1..] == [c] + rest;
  }

  lemma {:induction false} FieldBack(v: Value, key: string, indent: nat, after: string)
    requires v.Attrs? && key in v.fields
    ensures var text := WrittenKey(key, " = " + Written(v.fields[key], indent, ";" + after));
      && text != "" && text[0] !in {' ', '\n', '\t', '\r', '}'}
      && ReadField(text) == Outcome(FieldReadable(v, key), (key, v.fields[key]), after)
    decreases v, 0, 0
  {
    var value := Written(v.fields[key], indent, ";" + after);
    KeyBack(key, " = " + value);
    ReadBack(v.fields[key], indent, ";" + after, true);
    ReadFieldParts(WrittenKey(key, " = " + value), key, !Keyword(key), value, v.fields[key],
      Readable(v.fields[key], true), after);
  }

  lemma ReadFieldsStep(n: nat, text: string, ok: bool, key: string, value: Value, after: string,
      sofar: map<string, Value>)
    requires text != "" && text[0] !in {' ', '\n', '\t', '\r', '}'} && key !in sofar
    requires ReadField(text) == Outcome(ok, (key, value), after)
    ensures ReadFields("\n" + Spaces(n) + text, sofar) ==
      if ok then ReadFields(after, sofar[key := value]) else Unreadable
  {
    SkipLine(n, text);
    assert SkipSpace(text) == text;
  }

  predicate FieldsReadable(v: Value, keys: seq<string>)
    requires v.Attrs? && forall k <- keys :: k in v.fields
  {
    forall k <- keys :: FieldReadable(v, k)
  }

  lemma FirstAndRest(v: Value, keys: seq<string>)
    requires v.Attrs? && (forall k <- keys :: k in v.fields) && Sorted(keys) && keys != []
    ensures Sorted(keys[1..]) && keys[0] !in keys[1..] && forall k <- keys[1..] :: k in keys
    ensures FieldsReadable(v, keys) <==> FieldReadable(v, keys[0]) && FieldsReadable(v, keys[1..])
  {
    assert keys == [keys[0]] + keys[1..];
  }

  lemma FieldsEnd(end: string, tail: string, sofar: map<string, Value>)
    requires SkipSpace(end) == "}" + tail
    ensures ReadFields(end, sofar) == Read(sofar, tail)
  {
    assert ("}" + tail)[1..] == tail;
  }

  lemma {:induction false} FieldsBack(v: Value, keys: seq<string>, indent: nat, end: string, tail: string,
      sofar: map<string, Value>)
    requires v.Attrs? && (forall k <- keys :: k in v.fields && k !in sofar) && Sorted(keys)
    requires SkipSpace(end) == "}" + tail
    ensures ReadFields(WrittenFields(v, keys, indent, end), sofar) ==
      Outcome(FieldsReadable(v, keys), WithFields(v, keys, sofar), tail)
    decreases v, 0, |keys| + 1
  {
    if keys == [] {
      FieldsEnd(end, tail, sofar);
    } else {
      FirstAndRest(v, keys);
      FieldsBack(v, keys[1..], indent, end, tail, sofar[keys[0] := v.fields[keys[0]]]);
      FieldsStep(v, keys, indent, end, tail, sofar);
    }
  }

  lemma {:induction false} FieldsStep(v: Value, keys: seq<string>, indent: nat, end: string, tail: string,
      sofar: map<string, Value>)
    requires v.Attrs? && (forall k <- keys :: k in v.fields && k !in sofar) && keys != []
    requires FieldsReadable(v, keys) <==> FieldReadable(v, keys[0]) && FieldsReadable(v, keys[1..])
    requires ReadFields(WrittenFields(v, keys[1..], indent, end), sofar[keys[0] := v.fields[keys[0]]]) ==
      Outcome(FieldsReadable(v, keys[1..]), WithFields(v, keys[1..], sofar[keys[0] := v.fields[keys[0]]]), tail)
    ensures ReadFields(WrittenFields(v, keys, indent, end), sofar) ==
      Outcome(FieldsReadable(v, keys), WithFields(v, keys, sofar), tail)
    decreases v, 0, 1
  {
    var key := keys[0];
    var after := WrittenFields(v, keys[1..], indent, end);
    FieldBack(v, key, indent, after);
    ReadFieldsStep(indent, WrittenKey(key, " = " + Written(v.fields[key], indent, ";" + after)),
      FieldReadable(v, key), key, v.fields[key], after, sofar);
  }

  /** The round trip: rendered at any depth, a value is read back exactly when it is readable. */
  lemma RoundTrip(v: Value, indent: nat)
    requires RenderValue(v, indent).Some?
    ensures ReadExpr(RenderValue(v, indent).value, true) == Outcome(Readable(v, true), v, "")
  {
    RenderIsWritten(v, indent, "");
    assert RenderValue(v, indent).value + "" == RenderValue(v, indent).value;
    ReadBack(v, indent, "", true);
  }

  /** Indenting the rendered lines afterwards gives the rendering two deeper, so it is read the same. */
  lemma ReindentedRoundTrip(v: Value, indent: nat)
    requires RenderValue(v, indent).Some?
    ensures var text := ReplaceChar(RenderValue(v, indent).value, '\n', "\n  ");
      RenderValue(v, indent + 2) == Some(text) && ReadExpr(text, true) == Outcome(Readable(v, true), v, "")
  {
    DeeperText(v, indent);
    RoundTrip(v, indent + 2);
  }

  /** Values that render without an error and cannot be read: a reserved word as a name, a negative list
      element, an integer that Nix has no literal for. */
  lemma UnreadableRenderings()
    ensures var named, negative, huge := Attrs(map["in" := Null]), List([Int(-1)]), Int(NIX_INT_MAX + 1);
      forall v <- {named, negative, huge} ::
        RenderValue(v, 0).Some? && ReadExpr(RenderValue(v, 0).value, true) == Unreadable
  {
    var named, negative, huge := Attrs(map["in" := Null]), List([Int(-1)]), Int(NIX_INT_MAX + 1);
    assert !FieldReadable(named, "in") && !Readable(Int(-1), false);
    assert negative.items[0] == Int(-1);
    assert Supported("in");
    forall v <- {named, negative, huge}
      ensures RenderValue(v, 0).Some? && ReadExpr(RenderValue(v, 0).value, true) == Unreadable
    {
      RaisesExactly(v, 0);
      RoundTrip(v, 0);
    }
  }
}
