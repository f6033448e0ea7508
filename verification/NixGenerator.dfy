/** Rendering a managed value as a Nix expression. */
module NixGenerator {
  import opened Basics
  import opened NixText

  datatype Value =
    | Null
    | Bool(b: bool)
    | Int(n: int)
    | Str(s: string)
    | List(items: seq<Value>)
    | Attrs(fields: map<string, Value>)

  /** The order of strings by code points. */
  predicate AtMost(a: string, b: string) {
    a == "" || (b != "" && (a[0] < b[0] || (a[0] == b[0] && AtMost(a[1..], b[1..]))))
  }

  lemma {:induction false} Total(a: string, b: string)
    ensures AtMost(a, b) || AtMost(b, a)
  {
    if a != "" && b != "" { Total(a[1..], b[1..]); }
  }

  lemma {:induction false} Transitive(a: string, b: string, c: string)
    requires AtMost(a, b) && AtMost(b, c)
    ensures AtMost(a, c)
  {
    if a != "" && a[0] == b[0] == c[0] { Transitive(a[1..], b[1..], c[1..]); }
  }

  lemma {:induction false} Least(keys: set<string>) returns (m: string)
    requires keys != {}
    ensures m in keys && forall k <- keys :: AtMost(m, k)
    decreases |keys|
  {
    m :| m in keys;
    Total(m, m);
    if keys != {m} {
      var l := Least(keys - {m});
      Total(m, l);
      if AtMost(m, l) {
        forall k <- keys - {m} ensures AtMost(m, k) { Transitive(m, l, k); }
      } else {
        m := l;
      }
    }
  }

  lemma HasLeast(keys: set<string>)
    requires keys != {}
    ensures exists m :: m in keys && forall k <- keys :: AtMost(m, k)
  {
    var m := Least(keys);
  }

  lemma {:induction false} Antisymmetric(a: string, b: string)
    requires AtMost(a, b) && AtMost(b, a)
    ensures a == b
  {
    if a != "" {
      Antisymmetric(a[1..], b[1..]);
      assert a == [a[0]] + a[1..] && b == [b[0]] + b[1..];
    }
  }

  lemma OneLeast(keys: set<string>)
    ensures forall a, b | a in keys && b in keys && AtMost(a, b) && AtMost(b, a) :: a == b
  {
    forall a, b | a in keys && b in keys && AtMost(a, b) && AtMost(b, a) ensures a == b {
      Antisymmetric(a, b);
    }
  }

  predicate Sorted(keys: seq<string>) {
    forall i, j :: 0 <= i < j < |keys| ==> keys[i] != keys[j] && AtMost(keys[i], keys[j])
  }

  function SortedKeys(keys: set<string>): (r: seq<string>)
    ensures (forall k :: k in r <==> k in keys) && Sorted(r)
    decreases |keys|
  {
    if keys == {} then [] else
      HasLeast(keys);
      OneLeast(keys);
      var least :| least in keys && forall k <- keys :: AtMost(least, k);
      [least] + SortedKeys(keys - {least})
  }

  /** A string literal, or nothing when the string has an unsupported control character. */
  function NixString(s: string): Option<string> {
    if Supported(s) then Some("\"" + ReplacementChain(s) + "\"") else None
  }

  function NixKey(key: string): Option<string> {
    if Simple(key) then Some(key) else NixString(key)
  }

  function IntText(n: int): string {
    if n < 0 then "-" + Digits(-n) else Digits(n)
  }

  function Block(open: string, lines: seq<string>, indent: nat, close: string): string {
    open + "\n" + JoinLines(lines) + "\n" + Spaces(indent) + close
  }

  /** The rendered value, or nothing when rendering raises. */
  function RenderValue(v: Value, indent: nat): Option<string>
    decreases v, 1, 0
  {
    match v
    case Null => Some("null")
    case Bool(b) => Some(if b then "true" else "false")
    case Int(n) => Some(IntText(n))
    case Str(s) => NixString(s)
    case List(items) =>
      if items == [] then Some("[ ]") else
        (match RenderItems(items, indent + 2)
         case None => None
         case Some(lines) => Some(Block("[", lines, indent, "]")))
    case Attrs(fields) =>
      if fields == map[] then Some("{ }") else
        (match RenderFields(v, SortedKeys(fields.Keys), indent + 2)
         case None => None
         case Some(lines) => Some(Block("{", lines, indent, "}")))
  }

  function RenderItems(items: seq<Value>, indent: nat): (r: Option<seq<string>>)
    ensures r.Some? ==> |r.value| == |items|
    decreases items, 0, 0
  {
    if items == [] then Some([]) else
      match (RenderValue(items[0], indent), RenderItems(items[1..], indent))
      case (Some(text), Some(lines)) => Some([Spaces(indent) + text] + lines)
      case _ => None
  }

  function RenderFields(v: Value, keys: seq<string>, indent: nat): (r: Option<seq<string>>)
    requires v.Attrs? && forall k <- keys :: k in v.fields
    ensures r.Some? ==> |r.value| == |keys|
    decreases v, 0, |keys|
  {
    if keys == [] then Some([]) else
      match (NixKey(keys[0]), RenderValue(v.fields[keys[0]], indent), RenderFields(v, keys[1..], indent))
      case (Some(key), Some(text), Some(lines)) => Some([Spaces(indent) + key + " = " + text + ";"] + lines)
      case _ => None
  }

  /** Rendering does not raise. */
  predicate Renderable(v: Value) {
    match v
    case Str(s) => Supported(s)
    case List(items) => forall item <- items :: Renderable(item)
    case Attrs(fields) => forall k <- fields :: (Simple(k) || Supported(k)) && Renderable(fields[k])
    case _ => true
  }

  /** The text of a value with `tail` after it. */
  function Written(v: Value, indent: nat, tail: string): string
    decreases v, 1, 0
  {
    match v
    case Null => "null" + tail
    case Bool(b) => (if b then "true" else "false") + tail
    case Int(n) => IntText(n) + tail
    case Str(s) => "\"" + Escaped(s, "\"" + tail)
    case List(items) =>
      if items == [] then "[ ]" + tail
      else "[" + WrittenItems(items, indent + 2, "\n" + Spaces(indent) + ("]" + tail))
    case Attrs(fields) =>
      if fields == map[] then "{ }" + tail
      else "{" + WrittenFields(v, SortedKeys(fields.Keys), indent + 2, "\n" + Spaces(indent) + ("}" + tail))
  }

  function WrittenItems(items: seq<Value>, indent: nat, tail: string): string
    decreases items, 0, 0
  {
    if items == [] then tail
    else "\n" + Spaces(indent) + Written(items[0], indent, WrittenItems(items[1..], indent, tail))
  }

  function WrittenKey(key: string, tail: string): string {
    if Simple(key) then key + tail else "\"" + Escaped(key, "\"" + tail)
  }

  function WrittenFields(v: Value, keys: seq<string>, indent: nat, tail: string): string
    requires v.Attrs? && forall k <- keys :: k in v.fields
    decreases v, 0, |keys|
  {
    if keys == [] then tail
    else "\n" + Spaces(indent) + WrittenKey(keys[0],
      " = " + Written(v.fields[keys[0]], indent, ";" + WrittenFields(v, keys[1..], indent, tail)))
  }

  lemma StringIsWritten(s: string, tail: string)
    ensures NixString(s).Some? ==> NixString(s).value + tail == "\"" + Escaped(s, "\"" + tail)
  {
    ChainIsOnePass(s);
    EscapedTail(s, "", "\"" + tail);
    assert "" + ("\"" + tail) == "\"" + tail;
  }

  /** Rendering raises exactly when the value holds a control character that Nix text cannot carry. */
  lemma {:induction false} RaisesExactly(v: Value, indent: nat)
    ensures RenderValue(v, indent).Some? <==> Renderable(v)
    decreases v, 1, 0
  {
    match v
    case List(items) => ItemsRaise(items, indent + 2);
    case Attrs(fields) => FieldsRaise(v, SortedKeys(fields.Keys), indent + 2);
    case _ =>
  }

  lemma {:induction false} ItemsRaise(items: seq<Value>, indent: nat)
    ensures RenderItems(items, indent).Some? <==> forall item <- items :: Renderable(item)
    decreases items, 0, 0
  {
    if items != [] {
      RaisesExactly(items[0], indent);
      ItemsRaise(items[1..], indent);
      assert items == [items[0]] + items[1..];
    }
  }

  predicate FieldRenderable(v: Value, key: string)
    requires v.Attrs? && key in v.fields
  {
    (Simple(key) || Supported(key)) && Renderable(v.fields[key])
  }

  lemma {:induction false} FieldsRaise(v: Value, keys: seq<string>, indent: nat)
    requires v.Attrs? && forall k <- keys :: k in v.fields
    ensures RenderFields(v, keys, indent).Some? <==> forall k <- keys :: FieldRenderable(v, k)
    decreases v, 0, |keys|
  {
    if keys != [] {
      RaisesExactly(v.fields[keys[0]], indent);
      FieldsRaise(v, keys[1..], indent);
      assert keys == [keys[0]] + keys[1..];
      assert (forall k <- keys :: FieldRenderable(v, k)) <==>
        FieldRenderable(v, keys[0]) && forall k <- keys[1..] :: FieldRenderable(v, k);
    }
  }

  /** A rendered value followed by anything is the written text. */
  lemma {:induction false} RenderIsWritten(v: Value, indent: nat, tail: string)
    requires RenderValue(v, indent).Some?
    ensures RenderValue(v, indent).value + tail == Written(v, indent, tail)
    decreases v, 1, 0
  {
    match v
    case Str(s) => StringIsWritten(s, tail);
    case List(items) =>
      if items != [] {
        ItemsAreWritten(items, indent + 2, "\n" + Spaces(indent) + ("]" + tail));
        BlockTail("[", RenderItems(items, indent + 2).value, indent, "]", tail);
      }
    case Attrs(fields) =>
      if fields != map[] {
        var keys := SortedKeys(fields.Keys);
        assert keys != [] by { var k :| k in fields; assert k in keys; }
        FieldsAreWritten(v, keys, indent + 2, "\n" + Spaces(indent) + ("}" + tail));
        BlockTail("{", RenderFields(v, keys, indent + 2).value, indent, "}", tail);
      }
    case _ =>
  }

  lemma BlockTail(open: string, lines: seq<string>, indent: nat, close: string, tail: string)
    ensures Block(open, lines, indent, close) + tail ==
      open + ("\n" + JoinLines(lines) + ("\n" + Spaces(indent) + (close + tail)))
  {
  }

  lemma JoinSplits(line: string, lines: seq<string>, end: string)
    ensures "\n" + JoinLines([line] + lines) + end ==
      "\n" + line + (if lines == [] then end else "\n" + JoinLines(lines) + end)
  {
    assert ([line] + lines)[1..] == lines;
  }

  lemma {:induction false} ItemsAreWritten(items: seq<Value>, indent: nat, end: string)
    requires items != [] && RenderItems(items, indent).Some?
    ensures "\n" + JoinLines(RenderItems(items, indent).value) + end == WrittenItems(items, indent, end)
    decreases items, 0, 0
  {
    var tail := WrittenItems(items[1..], indent, end);
    var text, lines := RenderValue(items[0], indent).value, RenderItems(items[1..], indent).value;
    RenderIsWritten(items[0], indent, tail);
    if lines != [] {
      ItemsAreWritten(items[1..], indent, end);
    }
    JoinSplits(Spaces(indent) + text, lines, end);
    LineTail(indent, text, tail);
  }

  lemma LineTail(indent: nat, text: string, tail: string)
    ensures "\n" + (Spaces(indent) + text) + tail == "\n" + Spaces(indent) + (text + tail)
  {
  }

  lemma KeyIsWritten(key: string, tail: string)
    requires NixKey(key).Some?
    ensures NixKey(key).value + tail == WrittenKey(key, tail)
  {
    StringIsWritten(key, tail);
  }

  lemma {:induction false} FieldsAreWritten(v: Value, keys: seq<string>, indent: nat, end: string)
    requires v.Attrs? && (forall k <- keys :: k in v.fields) && keys != [] && RenderFields(v, keys, indent).Some?
    ensures "\n" + JoinLines(RenderFields(v, keys, indent).value) + end == WrittenFields(v, keys, indent, end)
    decreases v, 0, |keys|
  {
    var tail := WrittenFields(v, keys[1..], indent, end);
    var key, text := NixKey(keys[0]).value, RenderValue(v.fields[keys[0]], indent).value;
    var lines := RenderFields(v, keys[1..], indent).value;
    if lines != [] {
      FieldsAreWritten(v, keys[1..], indent, end);
    }
    RenderIsWritten(v.fields[keys[0]], indent, ";" + tail);
    KeyIsWritten(keys[0], " = " + Written(v.fields[keys[0]], indent, ";" + tail));
    JoinSplits(Spaces(indent) + key + " = " + text + ";", lines, end);
    FieldTail(indent, key, text, tail);
  }

  lemma FieldTail(indent: nat, key: string, text: string, tail: string)
    ensures "\n" + (Spaces(indent) + key + " = " + text + ";") + tail ==
      "\n" + Spaces(indent) + (key + (" = " + (text + (";" + tail))))
  {
  }

  /** Indenting the rendered text two deeper, line by line, is rendering it two deeper: no line break lies
      inside a literal. */
  lemma {:induction false} ReindentIsDeeper(v: Value, indent: nat, tail: string)
    ensures ReplaceChar(Written(v, indent, tail), '\n', "\n  ") ==
      Written(v, indent + 2, ReplaceChar(tail, '\n', "\n  "))
    decreases v, 1, 0
  {
    var sub := "\n  ";
    match v
    case Null => LineFree("null", tail, sub);
    case Bool(b) => LineFree(if b then "true" else "false", tail, sub);
    case Int(n) =>
      DigitsFree(if n < 0 then -n else n);
      LineFree(IntText(n), tail, sub);
    case Str(s) => ReindentString(s, tail);
    case List(items) =>
      if items == [] {
        LineFree("[ ]", tail, sub);
      } else {
        var end := "\n" + Spaces(indent) + ("]" + tail);
        ReindentItems(items, indent + 2, end);
        ReindentEnd(indent, "]", tail);
        LineFree("[", WrittenItems(items, indent + 2, end), sub);
      }
    case Attrs(fields) =>
      if fields == map[] {
        LineFree("{ }", tail, sub);
      } else {
        var end := "\n" + Spaces(indent) + ("}" + tail);
        ReindentFields(v, SortedKeys(fields.Keys), indent + 2, end);
        ReindentEnd(indent, "}", tail);
        LineFree("{", WrittenFields(v, SortedKeys(fields.Keys), indent + 2, end), sub);
      }
  }

  lemma ReindentString(s: string, tail: string)
    ensures ReplaceChar("\"" + Escaped(s, "\"" + tail), '\n', "\n  ") ==
      "\"" + Escaped(s, "\"" + ReplaceChar(tail, '\n', "\n  "))
  {
    LineFree("\"", Escaped(s, "\"" + tail), "\n  ");
    EscapedKeepsLines(s, "\"" + tail, "\n  ");
    LineFree("\"", tail, "\n  ");
  }

  lemma ReindentLine(indent: nat, t: string)
    ensures ReplaceChar("\n" + Spaces(indent) + t, '\n', "\n  ") ==
      "\n" + Spaces(indent + 2) + ReplaceChar(t, '\n', "\n  ")
  {
    SpacesFree(indent);
    LineFree(Spaces(indent), t, "\n  ");
    assert "\n" + Spaces(indent) + t == "\n" + (Spaces(indent) + t);
    assert ("\n" + (Spaces(indent) + t))[1..] == Spaces(indent) + t;
    assert Spaces(indent + 2) == " " + (" " + Spaces(indent));
  }

  lemma ReindentEnd(indent: nat, close: string, tail: string)
    requires forall i :: 0 <= i < |close| ==> close[i] != '\n'
    ensures ReplaceChar("\n" + Spaces(indent) + (close + tail), '\n', "\n  ") ==
      "\n" + Spaces(indent + 2) + (close + ReplaceChar(tail, '\n', "\n  "))
  {
    ReindentLine(indent, close + tail);
    LineFree(close, tail, "\n  ");
  }

  lemma {:induction false} ReindentItems(items: seq<Value>, indent: nat, tail: string)
    ensures ReplaceChar(WrittenItems(items, indent, tail), '\n', "\n  ") ==
      WrittenItems(items, indent + 2, ReplaceChar(tail, '\n', "\n  "))
    decreases items, 0, 0
  {
    if items != [] {
      ReindentItems(items[1..], indent, tail);
      ReindentIsDeeper(items[0], indent, WrittenItems(items[1..], indent, tail));
      ReindentLine(indent, Written(items[0], indent, WrittenItems(items[1..], indent, tail)));
    }
  }

  lemma {:induction false} ReindentFields(v: Value, keys: seq<string>, indent: nat, tail: string)
    requires v.Attrs? && forall k <- keys :: k in v.fields
    ensures ReplaceChar(WrittenFields(v, keys, indent, tail), '\n', "\n  ") ==
      WrittenFields(v, keys, indent + 2, ReplaceChar(tail, '\n', "\n  "))
    decreases v, 0, |keys|
  {
    if keys != [] {
      var after := ";" + WrittenFields(v, keys[1..], indent, tail);
      ReindentFields(v, keys[1..], indent, tail);
      LineFree(";", WrittenFields(v, keys[1..], indent, tail), "\n  ");
      var value := Written(v.fields[keys[0]], indent, after);
      ReindentIsDeeper(v.fields[keys[0]], indent, after);
      LineFree(" = ", value, "\n  ");
      ReindentKey(keys[0], " = " + value);
      ReindentLine(indent, WrittenKey(keys[0], " = " + value));
    }
  }

  lemma ReindentKey(key: string, tail: string)
    ensures ReplaceChar(WrittenKey(key, tail), '\n', "\n  ") == WrittenKey(key, ReplaceChar(tail, '\n', "\n  "))
  {
    if Simple(key) {
      LineFree(key, tail, "\n  ");
    } else {
      ReindentString(key, tail);
    }
  }

  /** The same for the rendering itself. */
  lemma DeeperText(v: Value, indent: nat)
    ensures RenderValue(v, indent).Some? <==> RenderValue(v, indent + 2).Some?
    ensures RenderValue(v, indent).Some? ==>
      RenderValue(v, indent + 2).value == ReplaceChar(RenderValue(v, indent).value, '\n', "\n  ")
  {
    RaisesExactly(v, indent);
    RaisesExactly(v, indent + 2);
    if RenderValue(v, indent).Some? {
      RenderIsWritten(v, indent, "");
      RenderIsWritten(v, indent + 2, "");
      ReindentIsDeeper(v, indent, "");
      var text, deeper := RenderValue(v, indent).value, RenderValue(v, indent + 2).value;
      assert text + "" == text && deeper + "" == deeper;
    }
  }
}
