/** The generated NixOS module, and reading the managed state back out of it. */
module NixModule {
  import opened Basics
  import opened NixText
  import opened NixGenerator
  import opened NixReader
  import opened NixAttrs

  /** Package and option names are attribute paths. */
  datatype ManagedState = ManagedState(packages: seq<string>, options: seq<(string, Value)>)

  const NOTICE := "# Generated by " + "Nix Control Manager. " + "DO NOT EDIT BY HAND."
  const ADVICE := "# Edit the " + "Nix Control Manager state " + "or use its interface, " + "then regenerate."
  const HEADER := NOTICE + ("\n" + ADVICE)

  const SYSTEM_PACKAGES := "environment.systemPackages"

  const HEADING := [HEADER, "", "{ pkgs, ... }:", "", "{"]

  /** Names joined by dots. */
  predicate AttributePath(path: string)
    decreases |path|
  {
    var (name, rest) := ReadName(path);
    Simple(name) && (rest == "" || (rest[0] == '.' && AttributePath(rest[1..])))
  }

  /** The character can stand there: a name starts at the beginning and after each dot. */
  predicate Stands(path: string, i: nat)
    requires i < |path|
  {
    if i == 0 || path[i - 1] == '.' then StartCode(path[i] as int) else NameCode(path[i] as int) || path[i] == '.'
  }

  predicate StandFrom(path: string, from: nat) {
    forall i :: from <= i < |path| ==> Stands(path, i)
  }

  lemma StandsLater(path: string, n: nat)
    requires n < |path| && path[n] == '.'
    ensures StandFrom(path, n + 1) <==> StandFrom(path[n + 1..], 0)
  {
    var more := path[n + 1..];
    forall i | 0 <= i < |more| ensures Stands(more, i) <==> Stands(path, n + 1 + i) {
    }
    if forall i :: 0 <= i < |more| ==> Stands(more, i) {
      forall i | n < i < |path| ensures Stands(path, i) {
        assert Stands(more, i - n - 1);
      }
    }
  }

  lemma StandsInName(path: string, n: nat)
    requires n <= |path| && AllNameChars(path[..n])
    ensures forall i :: 0 < i < n ==> Stands(path, i)
    ensures 0 < n ==> (Stands(path, 0) <==> IsNameStart(path[0]))
    ensures n < |path| && !IsNameChar(path[n]) ==> (Stands(path, n) <==> n > 0 && path[n] == '.')
  {
    assert forall i :: 0 <= i < n ==> path[..n][i] == path[i];
    assert forall i :: 0 <= i < n ==> IsNameChar(path[i]);
  }

  /** Which strings are attribute paths: names with single dots between them. */
  lemma {:induction false} PathsExactly(path: string)
    ensures AttributePath(path) <==>
      path != "" && path[|path| - 1] != '.' && StandFrom(path, 0)
    decreases |path|
  {
    var (name, rest) := ReadName(path);
    ReadNameLongest(path);
    var n := |name|;
    assert path[..n] == name && path[n..] == rest;
    StandsInName(path, n);
    if rest != "" && rest[0] == '.' {
      StandsLater(path, n);
      assert rest[1..] == path[n + 1..];
      PathsExactly(rest[1..]);
    }
    hide Stands, AllNameChars, IsNameStart, IsNameChar;
  }

  lemma {:induction false} ReadNameLongest(s: string)
    ensures AllNameChars(ReadName(s).0) && (ReadName(s).1 != "" ==> !IsNameChar(ReadName(s).1[0]))
  {
    if s != "" && IsNameChar(s[0]) {
      ReadNameLongest(s[1..]);
    }
  }

  predicate ValidState(state: ManagedState) {
    && (forall p <- state.packages :: AttributePath(p))
    && (forall o <- state.options :: AttributePath(o.0))
  }

  function PackageLines(packages: seq<string>): seq<string> {
    if packages == [] then [] else ["    pkgs." + packages[0]] + PackageLines(packages[1..])
  }

  function OptionLines(options: seq<(string, Value)>): (r: Option<seq<string>>) {
    if options == [] then Some([]) else
      match (RenderValue(options[0].1, 4), OptionLines(options[1..]))
      case (Some(text), Some(lines)) => Some(["  " + options[0].0 + " = " + text + ";"] + lines)
      case _ => None
  }

  function BodyLines(state: ManagedState): Option<seq<string>> {
    var packages :=
      if state.packages == [] then []
      else ["  environment.systemPackages = ["] + PackageLines(state.packages) + ["  ];"];
    var gap := if state.packages != [] && state.options != [] then [""] else [];
    match OptionLines(state.options)
    case None => None
    case Some(options) =>
      Some(packages + gap + options
        + if state.packages == [] && state.options == [] then ["  # No settings are managed yet."] else [])
  }

  lemma {:induction false} PackageLinesNext(packages: seq<string>, p: string)
    ensures PackageLines(packages + [p]) == PackageLines(packages) + ["    pkgs." + p]
  {
    if packages == [] {
    } else {
      assert (packages + [p])[1..] == packages[1..] + [p];
      PackageLinesNext(packages[1..], p);
    }
  }

  lemma {:induction false} OptionLinesNext(options: seq<(string, Value)>, o: (string, Value))
    ensures OptionLines(options + [o]) == match (OptionLines(options), RenderValue(o.1, 4))
      case (Some(lines), Some(text)) => Some(lines + ["  " + o.0 + " = " + text + ";"])
      case _ => None
  {
    if options == [] {
      assert [o][1..] == [] && options + [o] == [o];
      if RenderValue(o.1, 4).Some? {
        var last := ["  " + o.0 + " = " + RenderValue(o.1, 4).value + ";"];
        assert last + [] == [] + last;
      }
    } else {
      assert (options + [o])[1..] == options[1..] + [o];
      OptionLinesNext(options[1..], o);
      if OptionLines(options).Some? && RenderValue(o.1, 4).Some? {
        var first := ["  " + options[0].0 + " = " + RenderValue(options[0].1, 4).value + ";"];
        var last := ["  " + o.0 + " = " + RenderValue(o.1, 4).value + ";"];
        var lines := OptionLines(options[1..]).value;
        assert first + (lines + last) == (first + lines) + last;
      }
    }
  }

  lemma {:induction false} OptionLinesFail(options: seq<(string, Value)>, k: nat)
    requires k < |options| && RenderValue(options[k].1, 4).None?
    ensures OptionLines(options).None?
  {
    if k > 0 { OptionLinesFail(options[1..], k - 1); }
  }

  /** The rendering two deeper is the rendering itself, indented; on one line it is the same. */
  lemma Continued(v: Value)
    ensures RenderValue(v, 2).Some? <==> RenderValue(v, 4).Some?
    ensures RenderValue(v, 2).Some? ==>
      && RenderValue(v, 4).value == ReplaceChar(RenderValue(v, 2).value, '\n', "\n  ")
      && ('\n' !in RenderValue(v, 2).value ==> RenderValue(v, 4) == RenderValue(v, 2))
  {
    DeeperText(v, 2);
    if RenderValue(v, 2).Some? {
      var text := RenderValue(v, 2).value;
      if '\n' !in text {
        LineFree(text, "", "\n  ");
        assert text + "" == text;
      }
    }
  }

  /** One option line. A rendering of several lines is indented as a whole. */
  method OptionLine(path: string, v: Value) returns (line: Option<string>)
    ensures line == match RenderValue(v, 4)
      case None => None
      case Some(text) => Some("  " + path + " = " + text + ";")
  {
    Continued(v);
    var rendered := RenderValue(v, 2);
    if rendered.None? {
      return None;
    }
    if '\n' in rendered.value {
      var continuation := ReplaceChar(rendered.value, '\n', "\n  ");
      line := Some("  " + path + " = " + continuation + ";");
    } else {
      line := Some("  " + path + " = " + rendered.value + ";");
    }
  }

  method AddPackages(lines: seq<string>, packages: seq<string>) returns (r: seq<string>)
    ensures r == lines + PackageLines(packages)
  {
    r := lines;
    for k := 0 to |packages|
      invariant r == lines + PackageLines(packages[..k])
    {
      PackageLinesNext(packages[..k], packages[k]);
      assert packages[..k + 1] == packages[..k] + [packages[k]];
      r := r + ["    pkgs." + packages[k]];
    }
    assert packages[..|packages|] == packages;
  }

  method AddOptions(lines: seq<string>, options: seq<(string, Value)>) returns (r: Option<seq<string>>)
    ensures r == match OptionLines(options)
      case None => None
      case Some(more) => Some(lines + more)
  {
    var sofar := lines;
    for k := 0 to |options|
      invariant OptionLines(options[..k]).Some? && sofar == lines + OptionLines(options[..k]).value
    {
      var line := OptionLine(options[k].0, options[k].1);
      if line.None? {
        OptionLinesFail(options, k);
        return None;
      }
      OptionLinesNext(options[..k], options[k]);
      assert options[..k + 1] == options[..k] + [options[k]];
      sofar := sofar + [line.value];
    }
    assert options[..|options|] == options;
    r := Some(sofar);
  }

  /** The module text, or nothing when rendering an option raises. */
  method GenerateModule(state: ManagedState) returns (r: Option<string>)
    ensures r == match BodyLines(state)
      case None => None
      case Some(body) => Some(JoinLines(HEADING + body + ["}", ""]))
  {
    var lines := [];
    if state.packages != [] {
      lines := AddPackages(["  environment.systemPackages = ["], state.packages);
      lines := lines + ["  ];"];
    }
    if state.packages != [] && state.options != [] {
      lines := lines + [""];
    }
    var body := AddOptions(lines, state.options);
    if body.None? {
      return None;
    }
    lines := body.value;
    assert state.packages == [] ==> [] + OptionLines(state.options).value == OptionLines(state.options).value;
    if state.packages == [] && state.options == [] {
      lines := lines + ["  # No settings are managed yet."];
    }
    assert BodyLines(state).value == lines;
    r := Some(JoinLines(HEADING + lines + ["}", ""]));
  }

  /** What one line of a module body defines. */
  datatype Binding = Packages(names: seq<string>) | Setting(path: string, value: Value)

  /** White space and comments. */
  function SkipBlank(s: string): (r: string)
    ensures |r| <= |s|
    decreases |s|, 1
  {
    var t := SkipSpace(s);
    if t != "" && t[0] == '#' then SkipComment(t) else t
  }

  function SkipComment(s: string): (r: string)
    ensures |r| <= |s|
    decreases |s|, 0
  {
    if s == "" then "" else if s[0] == '\n' then SkipBlank(s[1..]) else SkipComment(s[1..])
  }

  /** Reads names joined by dots, none of them reserved. */
  function ReadPath(s: string): (r: Reading<string>)
    ensures r.Read? ==> |r.rest| < |s|
    decreases |s|
  {
    var (name, rest) := ReadName(s);
    if !Simple(name) || Keyword(name) then Unreadable
    else if rest != "" && rest[0] == '.' then
      match ReadPath(rest[1..])
      case Unreadable => Unreadable
      case Read(path, end) => Read(name + "." + path, end)
    else Read(name, rest)
  }

  /** Reads `pkgs.name` elements up to the closing bracket. */
  function ReadPackages(s: string): (r: Reading<seq<string>>)
    ensures r.Read? ==> |r.rest| < |s|
    decreases |s|
  {
    var t := SkipSpace(s);
    if t == "" then Unreadable
    else if t[0] == ']' then Read([], t[1..])
    else if !("pkgs." <= t) then Unreadable
    else
      match ReadPath(t[5..])
      case Unreadable => Unreadable
      case Read(path, rest) =>
        match ReadPackages(rest)
        case Unreadable => Unreadable
        case Read(names, end) => Read([path] + names, end)
  }

  /** Reads a value, or else a list of packages. */
  function ReadBound(path: string, s: string): (r: Reading<Binding>)
    ensures r.Read? ==> |r.rest| < |s|
  {
    match ReadExpr(s, true)
    case Read(v, rest) => Read(Setting(path, v), rest)
    case Unreadable =>
      match Expect(s, '[')
      case Unreadable => Unreadable
      case Read(_, inner) =>
        match ReadPackages(inner)
        case Read(names, rest) =>
          if path == "environment.systemPackages" then Read(Packages(names), rest) else Unreadable
        case Unreadable => Unreadable
  }

  function ReadBinding(t: string): (r: Reading<Binding>)
    ensures r.Read? ==> |r.rest| < |t|
  {
    match ReadPath(t)
    case Unreadable => Unreadable
    case Read(path, rest) =>
      match Expect(rest, '=')
      case Unreadable => Unreadable
      case Read(_, body) =>
        match ReadBound(path, body)
        case Unreadable => Unreadable
        case Read(binding, end) =>
          match Expect(end, ';')
          case Unreadable => Unreadable
          case Read(_, after) => Read(binding, after)
  }

  /** The names in a dotted path. */
  function Components(path: string): (r: seq<string>)
    ensures r != []
    decreases |path|
  {
    var (name, rest) := ReadName(path);
    if rest == "" then [name] else [name] + Components(rest[1..])
  }

  /** What a binding defines, and where. */
  function DefinitionOf(b: Binding): Definition {
    match b
    case Packages(_) => (Components(SYSTEM_PACKAGES), Leaf)
    case Setting(path, value) => (Components(path), DefOf(value))
  }

  /** Reads bindings up to the closing brace, refusing attributes that are already defined. */
  function ReadBindings(s: string, sofar: Attributes): (r: Reading<seq<Binding>>)
    ensures r.Read? ==> |r.rest| < |s|
    decreases |s|
  {
    var t := SkipBlank(s);
    if t == "" then Unreadable
    else if t[0] == '}' then Read([], t[1..])
    else
      match ReadBinding(t)
      case Unreadable => Unreadable
      case Read(binding, rest) =>
        var d := DefinitionOf(binding);
        match Add(sofar, d.0, d.1)
        case None => Unreadable
        case Some(next) =>
          match ReadBindings(rest, next)
          case Unreadable => Unreadable
          case Read(bindings, end) => Read([binding] + bindings, end)
  }

  /** The named arguments of a function, and whether it takes others. */
  datatype Formals = Formals(names: set<string>, others: bool)

  /** Reads the formal arguments up to the closing brace; the ellipsis comes last. */
  function ReadFormals(s: string, sofar: set<string>): (r: Reading<Formals>)
    ensures r.Read? ==> |r.rest| < |s|
    decreases |s|
  {
    var t := SkipBlank(s);
    if t == "" then Unreadable
    else if "..." <= t then
      var end := SkipBlank(t[3..]);
      if end != "" && end[0] == '}' then Read(Formals(sofar, true), end[1..]) else Unreadable
    else
      var (name, rest) := ReadName(t);
      var end := SkipBlank(rest);
      if !Simple(name) || Keyword(name) || name in sofar || end == "" then Unreadable
      else if end[0] == '}' then Read(Formals(sofar + {name}, false), end[1..])
      else if end[0] == ',' then ReadFormals(end[1..], sofar + {name})
      else Unreadable
  }

  /** Reads comments, the formal arguments with their colon, and the opening brace of the function's body. */
  function ReadHead(s: string): Reading<Formals> {
    var t := SkipBlank(s);
    if t == "" || t[0] != '{' then Unreadable
    else
      match ReadFormals(t[1..], {})
      case Unreadable => Unreadable
      case Read(formals, rest) =>
        var colon := SkipBlank(rest);
        if colon == "" || colon[0] != ':' then Unreadable
        else
          var body := SkipBlank(colon[1..]);
          if body == "" || body[0] != '{' then Unreadable else Read(formals, body[1..])
  }

  /** Reads a module: a function that names `pkgs`, and takes the other arguments that every module is given,
      and the bindings of its body. */
  function ReadModule(s: string): Reading<seq<Binding>> {
    match ReadHead(s)
    case Unreadable => Unreadable
    case Read(formals, body) =>
      if "pkgs" in formals.names && formals.others then ReadBindings(body, map[]) else Unreadable
  }

  /** No component of the path is a reserved word. */
  predicate ReadablePath(path: string)
    decreases |path|
  {
    var (name, rest) := ReadName(path);
    !Keyword(name) && (rest != "" ==> ReadablePath(rest[1..]))
  }

  function Settings(options: seq<(string, Value)>): seq<Binding> {
    if options == [] then [] else [Setting(options[0].0, options[0].1)] + Settings(options[1..])
  }

  function Bindings(state: ManagedState): seq<Binding> {
    (if state.packages == [] then [] else [Packages(state.packages)]) + Settings(state.options)
  }

  function Definitions(bindings: seq<Binding>): (r: seq<Definition>)
    ensures |r| == |bindings| && forall i :: 0 <= i < |r| ==> r[i] == DefinitionOf(bindings[i])
  {
    if bindings == [] then [] else [DefinitionOf(bindings[0])] + Definitions(bindings[1..])
  }

  /** Nix can read the module of the state: no name in it is reserved, every value is readable, and no two
      of its bindings are in each other's way. */
  predicate ReadableState(state: ManagedState) {
    && (forall p <- state.packages :: ReadablePath(p))
    && ReadableOptions(state.options)
    && PairwiseAgree(Definitions(Bindings(state)))
  }

  predicate ReadableOptions(options: seq<(string, Value)>) {
    forall o <- options :: ReadablePath(o.0) && Readable(o.1, true)
  }

  /** The lines, each after a line break. */
  function Broken(lines: seq<string>, tail: string): string {
    if lines == [] then tail else "\n" + (lines[0] + Broken(lines[1..], tail))
  }

  lemma {:induction false} JoinIsBroken(first: string, lines: seq<string>)
    ensures JoinLines([first] + lines) == first + Broken(lines, "")
    decreases lines
  {
    assert ([first] + lines)[1..] == lines;
    if lines == [] {
      assert first + "" == first;
    } else {
      JoinIsBroken(lines[0], lines[1..]);
      assert lines == [lines[0]] + lines[1..];
      assert first + "\n" + JoinLines(lines) == first + ("\n" + JoinLines(lines));
    }
  }

  lemma {:induction false} BrokenSplits(a: seq<string>, b: seq<string>, tail: string)
    ensures Broken(a + b, tail) == Broken(a, Broken(b, tail))
  {
    if a == [] {
      assert a + b == b;
    } else {
      BrokenSplits(a[1..], b, tail);
      assert (a + b)[1..] == a[1..] + b;
    }
  }

  lemma PathEnds(name: string, tail: string)
    requires Simple(name) && (tail != "" ==> !IsNameChar(tail[0]) && tail[0] != '.')
    ensures ReadPath(name + tail) == Outcome(!Keyword(name), name, tail)
  {
    ReadNameBack(name, tail);
  }

  lemma PathGoesOn(name: string, s: string)
    requires Simple(name)
    ensures ReadPath(name + ("." + s)) == match ReadPath(s)
      case Unreadable => Unreadable
      case Read(path, end) => Outcome(!Keyword(name), name + "." + path, end)
  {
    ReadNameBack(name, "." + s);
    assert ("." + s)[1..] == s;
  }

  lemma PathSplits(name: string, rest: string, tail: string)
    requires rest != "" && rest[0] == '.'
    ensures name + rest == name + "." + rest[1..]
    ensures name + rest + tail == name + ("." + (rest[1..] + tail))
  {
    assert rest == "." + rest[1..];
  }

  lemma {:induction false} PathBack(path: string, tail: string)
    requires AttributePath(path) && (tail != "" ==> !IsNameChar(tail[0]) && tail[0] != '.')
    ensures ReadPath(path + tail) == Outcome(ReadablePath(path), path, tail)
    decreases |path|
  {
    var (name, rest) := ReadName(path);
    if rest == "" {
      assert path == name;
      PathEnds(name, tail);
    } else {
      PathSplits(name, rest, tail);
      PathBack(rest[1..], tail);
      PathGoesOn(name, rest[1..] + tail);
    }
  }

  lemma SkipBlankLine(indent: nat, t: string)
    requires t != "" && t[0] !in {' ', '\n', '\t', '\r', '#'}
    ensures SkipBlank("\n" + (Spaces(indent) + t)) == t
  {
    SkipLine(indent, t);
    assert "\n" + (Spaces(indent) + t) == "\n" + Spaces(indent) + t;
    assert SkipSpace(t) == t;
  }

  /** A binding whose value is read as `ok` and `b` say. */
  lemma BindingParts(path: string, body: string, ok: bool, b: Binding, tail: string)
    requires AttributePath(path)
    requires ReadBound(path, " " + body) == Outcome(ok, b, ";" + tail)
    ensures ReadBinding(path + (" = " + body)) == Outcome(ReadablePath(path) && ok, b, tail)
  {
    PathBack(path, " = " + body);
    assert " = " + body == " " + ("=" + (" " + body));
    ExpectHere(" " + ("=" + (" " + body)), '=', " " + body);
    ExpectHere(";" + tail, ';', tail);
  }

  lemma SpaceBefore(body: string)
    requires body != "" && body[0] !in {' ', '\n', '\t', '\r'}
    ensures SkipSpace(" " + body) == body
    ensures ReadExpr(" " + body, true) == ReadExpr(body, true)
    ensures forall c :: Expect(" " + body, c) == if body[0] == c then Read((), body[1..]) else Unreadable
  {
    assert (" " + body)[1..] == body;
    assert SkipSpace(body) == body;
  }

  /** An unreadable value is not taken for a package list. */
  lemma NotPackages(v: Value, indent: nat, tail: string, inner: string)
    requires v.List? && v.items != [] && Written(v, indent, tail) == "[" + inner
    ensures ReadPackages(inner) == Unreadable
  {
    var end := "\n" + Spaces(indent) + ("]" + tail);
    assert ("[" + inner)[1..] == inner;
    assert ("[" + WrittenItems(v.items, indent + 2, end))[1..] == inner;
    var text := Written(v.items[0], indent + 2, WrittenItems(v.items[1..], indent + 2, end));
    StartsValue(v.items[0], indent + 2, WrittenItems(v.items[1..], indent + 2, end));
    assert inner == "\n" + Spaces(indent + 2) + text;
    SkipLine(indent + 2, text);
    assert SkipSpace(text) == text;
  }

  lemma SettingBack(path: string, v: Value, indent: nat, tail: string)
    ensures ReadBound(path, " " + Written(v, indent, ";" + tail)) ==
      Outcome(Readable(v, true), Setting(path, v), ";" + tail)
  {
    var body := Written(v, indent, ";" + tail);
    StartsValue(v, indent, ";" + tail);
    SpaceBefore(body);
    ReadBack(v, indent, ";" + tail, true);
    if !Readable(v, true) && v.List? {
      assert body == "[" + body[1..];
      NotPackages(v, indent, ";" + tail, body[1..]);
    } else if !Readable(v, true) {
      NoBracket(v, indent, ";" + tail);
    }
  }

  lemma NoBracket(v: Value, indent: nat, tail: string)
    requires !v.List?
    ensures Written(v, indent, tail) != "" && Written(v, indent, tail)[0] != '['
  {
    if v.Int? {
      ReadDigits(if v.n < 0 then -v.n else v.n, "");
    }
  }

  /** What reading goes on to after one binding. */
  function After(b: Binding, ok: bool, tail: string, sofar: Attributes): Reading<seq<Binding>> {
    if !ok then Unreadable
    else
      match Add(sofar, DefinitionOf(b).0, DefinitionOf(b).1)
      case None => Unreadable
      case Some(next) =>
        match ReadBindings(tail, next)
        case Unreadable => Unreadable
        case Read(bindings, end) => Read([b] + bindings, end)
  }

  lemma BindingStep(t: string, b: Binding, ok: bool, tail: string, sofar: Attributes)
    requires t != "" && t[0] !in {' ', '\n', '\t', '\r', '#', '}'} && ReadBinding(t) == Outcome(ok, b, tail)
    ensures ReadBindings("\n" + (Spaces(2) + t), sofar) == After(b, ok, tail, sofar)
  {
    SkipBlankLine(2, t);
  }

  /** One option line is read back as its setting. */
  lemma OptionBack(path: string, v: Value, tail: string, sofar: Attributes)
    requires AttributePath(path) && RenderValue(v, 4).Some?
    ensures var line := "  " + path + " = " + RenderValue(v, 4).value + ";";
      ReadBindings("\n" + (line + tail), sofar) ==
        After(Setting(path, v), ReadablePath(path) && Readable(v, true), tail, sofar)
  {
    var text := RenderValue(v, 4).value;
    RenderIsWritten(v, 4, ";" + tail);
    var body := Written(v, 4, ";" + tail);
    SettingBack(path, v, 4, tail);
    BindingParts(path, body, Readable(v, true), Setting(path, v), tail);
    BindingStep(path + (" = " + body), Setting(path, v), ReadablePath(path) && Readable(v, true), tail, sofar);
    OptionLineText(path, text, tail, body);
  }

  lemma OptionLineText(path: string, text: string, tail: string, body: string)
    requires text + (";" + tail) == body
    ensures "\n" + ("  " + path + " = " + text + ";" + tail) == "\n" + (Spaces(2) + (path + (" = " + body)))
  {
    assert Spaces(2) == "  " by { assert Spaces(1) == " "; }
  }

  /** The text ends the module, whatever has been defined. */
  ghost predicate Ends(tail: string, end: string) {
    forall t: Attributes :: ReadBindings(tail, t) == Read([], end)
  }

  lemma {:induction false} OptionsBack(options: seq<(string, Value)>, tail: string, end: string, sofar: Attributes)
    requires (forall o <- options :: AttributePath(o.0)) && OptionLines(options).Some? && Ends(tail, end)
    ensures ReadBindings(Broken(OptionLines(options).value, tail), sofar) ==
      Outcome(ReadableOptions(options) && AddAll(sofar, Definitions(Settings(options))).Some?, Settings(options), end)
    decreases |options|
  {
    if options != [] {
      var rest := options[1..];
      var after := Broken(OptionLines(rest).value, tail);
      OptionBack(options[0].0, options[0].1, after, sofar);
      var line := "  " + options[0].0 + " = " + RenderValue(options[0].1, 4).value + ";";
      assert ([line] + OptionLines(rest).value)[1..] == OptionLines(rest).value;
      var d := DefinitionOf(Setting(options[0].0, options[0].1));
      FirstOption(options);
      if Add(sofar, d.0, d.1).Some? {
        OptionsBack(rest, tail, end, Add(sofar, d.0, d.1).value);
      }
    }
  }

  lemma FirstOption(options: seq<(string, Value)>)
    requires options != []
    ensures ReadableOptions(options) <==>
      ReadablePath(options[0].0) && Readable(options[0].1, true) && ReadableOptions(options[1..])
    ensures Definitions(Settings(options)) ==
      [DefinitionOf(Setting(options[0].0, options[0].1))] + Definitions(Settings(options[1..]))
  {
    assert options == [options[0]] + options[1..];
    var settings := Settings(options);
    assert settings[1..] == Settings(options[1..]);
  }

  lemma {:induction false} PackagesBack(packages: seq<string>, end: string, tail: string)
    requires forall p <- packages :: AttributePath(p)
    requires end != "" && end[0] == '\n' && ReadPackages(end) == Read([], tail)
    ensures Broken(PackageLines(packages), end) != "" && Broken(PackageLines(packages), end)[0] == '\n'
    ensures ReadPackages(Broken(PackageLines(packages), end)) ==
      Outcome(forall p <- packages :: ReadablePath(p), packages, tail)
  {
    if packages != [] {
      PackagesBack(packages[1..], end, tail);
      var line := "    pkgs." + packages[0];
      assert ([line] + PackageLines(packages[1..]))[1..] == PackageLines(packages[1..]);
      PackageBack(packages[0], Broken(PackageLines(packages[1..]), end));
      assert packages == [packages[0]] + packages[1..];
    }
  }

  lemma PackageBack(p: string, rest: string)
    requires AttributePath(p) && rest != "" && rest[0] == '\n'
    ensures ReadPackages("\n" + ("    pkgs." + p + rest)) == match ReadPackages(rest)
      case Unreadable => Unreadable
      case Read(names, end) => Outcome(ReadablePath(p), [p] + names, end)
  {
    var t := "pkgs." + (p + rest);
    assert Spaces(4) == "    " by { assert Spaces(2) == " " + Spaces(1) && Spaces(3) == " " + Spaces(2); }
    assert "\n" + ("    pkgs." + p + rest) == "\n" + Spaces(4) + t;
    SkipLine(4, t);
    assert SkipSpace(t) == t;
    assert t[5..] == p + rest;
    PathBack(p, rest);
  }

  lemma PackagesEnd(tail: string)
    ensures ReadPackages("\n" + ("  ];" + tail)) == Read([], ";" + tail)
  {
    assert Spaces(2) == "  " by { assert Spaces(1) == " "; }
    var t := "]" + (";" + tail);
    assert "\n" + ("  ];" + tail) == "\n" + Spaces(2) + t;
    SkipLine(2, t);
    assert t[1..] == ";" + tail;
  }

  lemma TwoNames(a: string, b: string)
    requires Simple(a) && Simple(b) && !Keyword(a) && !Keyword(b)
    ensures AttributePath(a + ("." + b)) && ReadablePath(a + ("." + b))
  {
    ReadNameBack(a, "." + b);
    assert ("." + b)[1..] == b;
    ReadNameBack(b, "");
    assert b + "" == b;
  }

  lemma SystemPackages()
    ensures AttributePath("environment.systemPackages") && ReadablePath("environment.systemPackages")
  {
    TwoNames("environment", "systemPackages");
    assert "environment" + ("." + "systemPackages") == "environment.systemPackages";
  }

  lemma NotAValue(p: string, rest: string)
    ensures ReadExpr("[" + ("\n" + ("    pkgs." + p + rest)), true) == Unreadable
  {
    var inner := "\n" + ("    pkgs." + p + rest);
    var t := "pkgs" + ("." + (p + rest));
    assert Spaces(4) == "    " by { assert Spaces(2) == " " + Spaces(1) && Spaces(3) == " " + Spaces(2); }
    assert inner == "\n" + Spaces(4) + t;
    SkipLine(4, t);
    assert SkipSpace(t) == t;
    assert AllNameChars("pkgs");
    ReadNameBack("pkgs", "." + (p + rest));
    ReadList(inner, true);
  }

  /** The package lines are read back as the list of packages. */
  lemma PackagesBindingBack(packages: seq<string>, tail: string, sofar: Attributes)
    requires packages != [] && forall p <- packages :: AttributePath(p)
    ensures var end := "\n" + ("  ];" + tail);
      ReadBindings("\n" + ("  environment.systemPackages = [" + Broken(PackageLines(packages), end)), sofar) ==
        After(Packages(packages), forall p <- packages :: ReadablePath(p), tail, sofar)
  {
    var path := "environment.systemPackages";
    var end := "\n" + ("  ];" + tail);
    var inner := Broken(PackageLines(packages), end);
    var body := "[" + inner;
    var ok := forall p <- packages :: ReadablePath(p);
    PackagesBound(packages, end, ";" + tail, body) by { PackagesEnd(tail); }
    SystemPackages();
    BindingParts(path, body, ok, Packages(packages), tail);
    BindingStep(path + (" = " + body), Packages(packages), ok, tail, sofar);
    PackagesLineText(inner);
  }

  lemma PackagesLineText(inner: string)
    ensures "\n" + ("  environment.systemPackages = [" + inner) ==
      "\n" + (Spaces(2) + ("environment.systemPackages" + (" = " + ("[" + inner))))
  {
    assert Spaces(2) == "  " by { assert Spaces(1) == " "; }
    assert "  environment.systemPackages = [" == "  " + ("environment.systemPackages" + (" = " + "["));
  }

  lemma PackagesBound(packages: seq<string>, end: string, after: string, body: string)
    requires packages != [] && forall p <- packages :: AttributePath(p)
    requires end != "" && end[0] == '\n' && ReadPackages(end) == Read([], after)
    requires body == "[" + Broken(PackageLines(packages), end)
    ensures ReadBound("environment.systemPackages", " " + body) ==
      Outcome(forall p <- packages :: ReadablePath(p), Packages(packages), after)
  {
    PackagesBack(packages, end, after);
    SpaceBefore(body);
    var rest := Broken(PackageLines(packages[1..]), end);
    assert (["    pkgs." + packages[0]] + PackageLines(packages[1..]))[1..] == PackageLines(packages[1..]);
    NotAValue(packages[0], rest);
    assert body[1..] == Broken(PackageLines(packages), end);
  }

  lemma EndOfModule()
    ensures Ends("\n" + ("}" + "\n"), "\n")
  {
    SkipBlankLine(0, "}" + "\n");
    assert Spaces(0) + ("}" + "\n") == "}" + "\n";
    assert ("}" + "\n")[1..] == "\n";
  }

  lemma {:induction false} CommentSkipped(s: string, t: string)
    requires forall i :: 0 <= i < |s| ==> s[i] != '\n'
    ensures SkipComment(s + ("\n" + t)) == SkipBlank(t)
  {
    if s == "" {
      assert s + ("\n" + t) == "\n" + t;
      assert ("\n" + t)[1..] == t;
    } else {
      assert (s + ("\n" + t))[1..] == s[1..] + ("\n" + t);
      CommentSkipped(s[1..], t);
    }
  }

  /** A comment line says nothing. */
  lemma CommentBack(comment: string, tail: string, sofar: Attributes)
    requires comment != "" && comment[0] == '#' && forall i :: 0 <= i < |comment| ==> comment[i] != '\n'
    ensures ReadBindings("\n" + (Spaces(2) + (comment + ("\n" + tail))), sofar) == ReadBindings(tail, sofar)
  {
    var t := comment + ("\n" + tail);
    assert "\n" + (Spaces(2) + t) == "\n" + Spaces(2) + t;
    SkipLine(2, t);
    assert SkipSpace(t) == t;
    CommentSkipped(comment, tail);
  }

  lemma NoSettingsText(tail: string)
    ensures var comment := "# No settings are managed yet.";
      && (forall i :: 0 <= i < |comment| ==> comment[i] != '\n')
      && "\n" + ("  # No settings are managed yet." + ("\n" + tail)) == "\n" + (Spaces(2) + (comment + ("\n" + tail)))
  {
    assert Spaces(2) == "  " by { assert Spaces(1) == " "; }
    assert "  # No settings are managed yet." == "  " + "# No settings are managed yet.";
  }

  lemma NoSettings(tail: string, sofar: Attributes)
    ensures ReadBindings("\n" + ("  # No settings are managed yet." + ("\n" + tail)), sofar) ==
      ReadBindings(tail, sofar)
  {
    NoSettingsText(tail);
    CommentBack("# No settings are managed yet.", tail, sofar);
  }

  lemma GapBack(tail: string, sofar: Attributes)
    ensures ReadBindings("\n" + ("" + tail), sofar) == ReadBindings(tail, sofar)
  {
    assert "\n" + ("" + tail) == "\n" + tail;
    assert ("\n" + tail)[1..] == tail;
  }

  lemma BrokenOne(line: string, tail: string)
    ensures Broken([line], tail) == "\n" + (line + tail)
  {
    assert [line][1..] == [];
  }

  /** The lines of the package list, with more lines after them. */
  lemma PackagesBroken(packages: seq<string>, tail: string)
    ensures Broken(["  environment.systemPackages = ["] + PackageLines(packages) + ["  ];"], tail) ==
      "\n" + ("  environment.systemPackages = [" + Broken(PackageLines(packages), "\n" + ("  ];" + tail)))
  {
    var first, last := ["  environment.systemPackages = ["], ["  ];"];
    BrokenSplits(first + PackageLines(packages), last, tail);
    BrokenSplits(first, PackageLines(packages), Broken(last, tail));
    BrokenOne(last[0], tail);
    BrokenOne(first[0], Broken(PackageLines(packages), Broken(last, tail)));
  }

  /** The gap and the options. */
  lemma OptionsBroken(gap: bool, options: seq<(string, Value)>, tail: string, end: string, sofar: Attributes)
    requires (forall o <- options :: AttributePath(o.0)) && OptionLines(options).Some? && Ends(tail, end)
    ensures ReadBindings(Broken((if gap then [""] else []) + OptionLines(options).value, tail), sofar) ==
      Outcome(ReadableOptions(options) && AddAll(sofar, Definitions(Settings(options))).Some?, Settings(options), end)
  {
    var lines := OptionLines(options).value;
    OptionsBack(options, tail, end, sofar);
    if gap {
      BrokenSplits([""], lines, tail);
      BrokenOne("", Broken(lines, tail));
      GapBack(Broken(lines, tail), sofar);
    } else {
      assert [] + lines == lines;
    }
  }

  /** The body of a module, read up to its end. */
  lemma BodyBack(state: ManagedState, end: string, rest: string)
    requires ValidState(state) && BodyLines(state).Some? && Ends("\n" + end, rest)
    ensures ReadBindings(Broken(BodyLines(state).value, "\n" + end), map[]) ==
      Outcome(ReadableState(state), Bindings(state), rest)
  {
    hide ReadBindings, Broken, BodyLines, Bindings, AddAll, Definitions;
    AcceptedExactly(Definitions(Bindings(state)));
    if state.packages == [] && state.options == [] {
      EmptyBody(state, end, rest);
    } else if state.packages == [] {
      OptionsOnly(state, "\n" + end, rest);
    } else {
      FullBody(state, "\n" + end, rest);
    }
  }

  lemma OptionsOnly(state: ManagedState, tail: string, rest: string)
    requires ValidState(state) && BodyLines(state).Some? && Ends(tail, rest)
    requires state.packages == [] && state.options != []
    ensures ReadBindings(Broken(BodyLines(state).value, tail), map[]) == Outcome(
      ReadableOptions(state.options) && AddAll(map[], Definitions(Bindings(state))).Some?, Bindings(state), rest)
  {
    OptionsBroken(false, state.options, tail, rest, map[]);
    assert BodyLines(state).value == [] + OptionLines(state.options).value;
    assert Bindings(state) == Settings(state.options);
  }

  lemma EmptyBody(state: ManagedState, end: string, rest: string)
    requires state == ManagedState([], []) && Ends("\n" + end, rest)
    ensures ReadBindings(Broken(BodyLines(state).value, "\n" + end), map[]) ==
      Outcome(ReadableState(state), Bindings(state), rest)
  {
    var line := "  # No settings are managed yet.";
    assert BodyLines(state).value == [line];
    BrokenOne(line, "\n" + end);
    NoSettings(end, map[]);
    GapBack("\n" + end, map[]);
    assert Bindings(state) == [];
  }

  lemma FullBody(state: ManagedState, tail: string, rest: string)
    requires ValidState(state) && BodyLines(state).Some? && state.packages != [] && Ends(tail, rest)
    ensures ReadBindings(Broken(BodyLines(state).value, tail), map[]) == Outcome(
      && (forall p <- state.packages :: ReadablePath(p)) && ReadableOptions(state.options)
      && AddAll(map[], Definitions(Bindings(state))).Some?, Bindings(state), rest)
  {
    var packages := ["  environment.systemPackages = ["] + PackageLines(state.packages) + ["  ];"];
    var gap := state.options != [];
    var options := (if gap then [""] else []) + OptionLines(state.options).value;
    assert BodyLines(state).value == packages + options;
    BrokenSplits(packages, options, tail);
    PackagesBroken(state.packages, Broken(options, tail));
    PackagesBindingBack(state.packages, Broken(options, tail), map[]);
    var d := DefinitionOf(Packages(state.packages));
    AddWhereFree(map[], d.0, d.1);
    OptionsBroken(gap, state.options, tail, rest, Add(map[], d.0, d.1).value);
    FirstBinding(state);
  }

  lemma FirstBinding(state: ManagedState)
    requires state.packages != []
    ensures Definitions(Bindings(state)) ==
      [DefinitionOf(Packages(state.packages))] + Definitions(Settings(state.options))
  {
    var bindings := Bindings(state);
    assert bindings[1..] == Settings(state.options);
  }

  lemma NoticeText()
    ensures NOTICE != "" && NOTICE[0] == '#' && forall i :: 0 <= i < |NOTICE| ==> NOTICE[i] != '\n'
  {
    assert NOTICE[0] == "# Generated by "[0];
  }

  lemma AdviceText()
    ensures ADVICE != "" && ADVICE[0] == '#' && forall i :: 0 <= i < |ADVICE| ==> ADVICE[i] != '\n'
  {
    assert ADVICE[0] == "# Edit the "[0];
  }

  /** Two comment lines, and whatever follows them. */
  lemma HeaderSkipped(t: string)
    ensures SkipBlank(HEADER + ("\n" + t)) == SkipBlank(t)
  {
    var more := ADVICE + ("\n" + t);
    assert HEADER + ("\n" + t) == NOTICE + ("\n" + more);
    NoticeText();
    AdviceText();
    hide NOTICE, ADVICE;
    CommentSkipped(NOTICE, more);
    CommentSkipped(ADVICE, t);
    assert SkipSpace(NOTICE + ("\n" + more)) == NOTICE + ("\n" + more);
    assert SkipSpace(more) == more;
  }

  lemma BlankBefore(c: char, t: string)
    requires c in {' ', '\n'}
    ensures SkipBlank([c] + t) == SkipBlank(t)
  {
    assert ([c] + t)[1..] == t;
  }

  lemma NotBlank(t: string)
    requires t != "" && t[0] !in {' ', '\n', '\t', '\r', '#'}
    ensures SkipBlank(t) == t
  {
  }

  lemma FormalsText(tail: string)
    ensures "{ pkgs, ... }:" + tail == "{" + ([' '] + ("pkgs" + ("," + ([' '] + ("..." + ([' '] + ("}:" + tail)))))))
  {
    assert "{ pkgs, ... }:" == "{" + ([' '] + ("pkgs" + ("," + ([' '] + ("..." + ([' '] + "}:"))))));
  }

  /** The ellipsis ends the formal arguments. */
  lemma DotsBack(end: string, names: set<string>)
    requires end != "" && end[0] == '}'
    ensures ReadFormals([' '] + ("..." + ([' '] + end)), names) == Read(Formals(names, true), end[1..])
  {
    var dots := "..." + ([' '] + end);
    BlankBefore(' ', dots);
    NotBlank(dots);
    assert dots[3..] == [' '] + end && "..." <= dots;
    BlankBefore(' ', end);
    NotBlank(end);
    hide SkipBlank;
  }

  /** A formal argument, and more after it. */
  lemma FormalBack(name: string, more: string, names: set<string>)
    requires Simple(name) && !Keyword(name) && name !in names
    ensures ReadFormals([' '] + (name + ("," + more)), names) == ReadFormals(more, names + {name})
  {
    var comma := "," + more;
    BlankBefore(' ', name + comma);
    NotBlank(name + comma);
    assert !("..." <= name + comma);
    ReadNameBack(name, comma);
    NotBlank(comma);
    assert comma[1..] == more && comma[0] == ',';
    hide SkipBlank, ReadName;
  }

  /** The formal arguments of a generated module. */
  lemma FormalsBack(tail: string)
    ensures ReadFormals([' '] + ("pkgs" + ("," + ([' '] + ("..." + ([' '] + ("}:" + tail)))))), {}) ==
      Read(Formals({"pkgs"}, true), ":" + tail)
  {
    var end, none: set<string> := "}:" + tail, {};
    assert end[1..] == ":" + tail && end[0] == '}';
    assert Simple("pkgs") && !Keyword("pkgs");
    hide ReadFormals;
    FormalBack("pkgs", [' '] + ("..." + ([' '] + end)), none);
    assert none + {"pkgs"} == {"pkgs"};
    DotsBack(end, {"pkgs"});
  }

  /** The head of every generated module is read by the grammar. */
  lemma HeadBack(tail: string)
    ensures ReadHead(JoinLines(HEADING) + tail) == Read(Formals({"pkgs"}, true), tail)
  {
    var body := "{" + tail;
    var colon := ":" + (['\n'] + (['\n'] + body));
    var formals := "{ pkgs, ... }:" + (['\n'] + (['\n'] + body));
    HeadText(tail);
    HeaderSkipped(['\n'] + formals);
    BlankBefore('\n', formals);
    FormalsText(['\n'] + (['\n'] + body));
    NotBlank(formals);
    FormalsBack(['\n'] + (['\n'] + body));
    assert formals[1..] == [' '] + ("pkgs" + ("," + ([' '] + ("..." + ([' '] + ("}:" + (['\n'] + (['\n'] + body))))))));
    NotBlank(colon);
    assert colon[1..] == ['\n'] + (['\n'] + body);
    BlankBefore('\n', ['\n'] + body);
    BlankBefore('\n', body);
    NotBlank(body);
    assert body[1..] == tail;
  }

  lemma HeadText(tail: string)
    ensures JoinLines(HEADING) + tail ==
      HEADER + ("\n" + (['\n'] + ("{ pkgs, ... }:" + (['\n'] + (['\n'] + ("{" + tail))))))
  {
    hide HEADER;
    var more := ["", "{ pkgs, ... }:", "", "{"];
    assert HEADING == [HEADER] + more;
    JoinIsBroken(HEADER, more);
    BrokenTail(more, tail);
    assert HEADER + Broken(more, "") + tail == HEADER + (Broken(more, "") + tail);
    BrokenOne("{", tail);
    assert more[1..] == ["{ pkgs, ... }:", "", "{"] && more[1..][1..] == ["", "{"] && more[1..][1..][1..] == ["{"];
  }

  lemma HeadSplits(lines: seq<string>)
    ensures JoinLines(HEADING + lines) == JoinLines(HEADING) + Broken(lines, "")
  {
    var more := HEADING[1..];
    assert HEADING == [HEADER] + more;
    assert HEADING + lines == [HEADER] + (more + lines);
    JoinIsBroken(HEADER, more);
    JoinIsBroken(HEADER, more + lines);
    BrokenSplits(more, lines, "");
    BrokenTail(more, Broken(lines, ""));
    assert HEADER + (Broken(more, "") + Broken(lines, "")) == HEADER + Broken(more, "") + Broken(lines, "");
  }

  lemma {:induction false} BrokenTail(lines: seq<string>, tail: string)
    ensures Broken(lines, tail) == Broken(lines, "") + tail
  {
    if lines == [] {
      assert "" + tail == tail;
    } else {
      BrokenTail(lines[1..], tail);
    }
  }

  lemma ModuleEnd()
    ensures Broken(["}", ""], "") == "\n" + ("}" + "\n")
  {
    BrokenSplits(["}"], [""], "");
    BrokenOne("", "");
    BrokenOne("}", "\n" + ("" + ""));
    assert ["}", ""] == ["}"] + [""];
    assert "\n" + ("" + "") == "\n";
  }

  /** The generated module is read back, packages and settings in order, exactly when no name in it is
      reserved, every value is readable and no two bindings are in each other's way. */
  lemma ModuleBack(state: ManagedState)
    requires ValidState(state) && BodyLines(state).Some?
    ensures ReadModule(JoinLines(HEADING + BodyLines(state).value + ["}", ""])) ==
      Outcome(ReadableState(state), Bindings(state), "\n")
  {
    var body := BodyLines(state).value;
    assert HEADING + body + ["}", ""] == HEADING + (body + ["}", ""]);
    HeadSplits(body + ["}", ""]);
    BrokenSplits(body, ["}", ""], "");
    ModuleEnd();
    EndOfModule();
    BodyBack(state, "}" + "\n", "\n");
    HeadBack(Broken(body, "\n" + ("}" + "\n")));
  }

  /** Options one of which is no attribute set, while the other has the same path or one through it, or the
      package list and such an option: the module is rendered, and Nix does not read it. */
  lemma OverlapIsUnreadable(state: ManagedState, i: nat, j: nat)
    requires ValidState(state) && BodyLines(state).Some? && i < j < |Bindings(state)|
    requires var a, b := DefinitionOf(Bindings(state)[i]), DefinitionOf(Bindings(state)[j]);
      Prefix(a.0, b.0) && a.1.Leaf?
    ensures ReadModule(JoinLines(HEADING + BodyLines(state).value + ["}", ""])) == Unreadable
  {
    var ds := Definitions(Bindings(state));
    AgreeWhenApart(ds[i].0, ds[i].1, ds[j].0, ds[j].1);
    assert !Agree(ds[i], ds[j]);
    ModuleBack(state);
  }

  /** Where no path equals or runs through another, nothing is in the way. */
  lemma ApartIsReadable(state: ManagedState)
    requires (forall p <- state.packages :: ReadablePath(p)) && ReadableOptions(state.options)
    requires forall i, j :: 0 <= i < j < |Bindings(state)| ==>
      (var a, b := DefinitionOf(Bindings(state)[i]), DefinitionOf(Bindings(state)[j]);
       !Prefix(a.0, b.0) && !Prefix(b.0, a.0))
    ensures ReadableState(state)
  {
    var ds := Definitions(Bindings(state));
    forall i, j | 0 <= i < j < |ds| ensures Agree(ds[i], ds[j]) {
      AgreeWhenApart(ds[i].0, ds[i].1, ds[j].0, ds[j].1);
    }
  }

  lemma OneComponent(name: string)
    requires Simple(name)
    ensures Components(name) == [name] && AttributePath(name)
  {
    ReadNameBack(name, "");
    assert name + "" == name;
  }

  lemma TwoComponents(a: string, b: string)
    requires Simple(a) && Simple(b)
    ensures Components(a + ("." + b)) == [a, b] && AttributePath(a + ("." + b))
  {
    ReadNameBack(a, "." + b);
    assert ("." + b)[1..] == b;
    OneComponent(b);
  }

  lemma {:induction false} NullOptions(options: seq<(string, Value)>)
    requires forall o <- options :: o.1.Null?
    ensures OptionLines(options).Some? && |Settings(options)| == |options|
    ensures forall k :: 0 <= k < |options| ==> Settings(options)[k] == Setting(options[k].0, Null)
  {
    if options != [] {
      NullOptions(options[1..]);
      assert RenderValue(options[0].1, 4).Some?;
    }
  }

  lemma TwoOptions(a: string, b: string)
    requires AttributePath(a) && AttributePath(b) && Prefix(Components(a), Components(b))
    ensures var state := ManagedState([], [(a, Null), (b, Null)]);
      && ValidState(state) && BodyLines(state).Some?
      && ReadModule(JoinLines(HEADING + BodyLines(state).value + ["}", ""])) == Unreadable
  {
    var state := ManagedState([], [(a, Null), (b, Null)]);
    NullOptions(state.options);
    assert Bindings(state) == Settings(state.options);
    assert DefinitionOf(Bindings(state)[0]) == (Components(a), Leaf);
    assert DefinitionOf(Bindings(state)[1]) == (Components(b), Leaf);
    OverlapIsUnreadable(state, 0, 1);
  }

  lemma PackagesAndOption(p: string, q: string)
    requires AttributePath(p) && AttributePath(q) && q == SYSTEM_PACKAGES
    ensures var state := ManagedState([p], [(q, Null)]);
      && ValidState(state) && BodyLines(state).Some?
      && ReadModule(JoinLines(HEADING + BodyLines(state).value + ["}", ""])) == Unreadable
  {
    var state := ManagedState([p], [(q, Null)]);
    ListAndSetting(p, q);
    OverlapIsUnreadable(state, 0, 1);
  }

  lemma ListAndSetting(p: string, q: string)
    requires AttributePath(p) && AttributePath(q) && q == SYSTEM_PACKAGES
    ensures var state := ManagedState([p], [(q, Null)]);
      && ValidState(state) && BodyLines(state).Some? && |Bindings(state)| == 2
      && DefinitionOf(Bindings(state)[0]) == (Components(q), Leaf)
      && DefinitionOf(Bindings(state)[1]) == (Components(q), Leaf)
    ensures Prefix(Components(q), Components(q))
  {
    hide Components, AttributePath;
    var state := ManagedState([p], [(q, Null)]);
    NullOptions(state.options);
    assert Bindings(state) == [Packages([p])] + Settings(state.options);
    PrefixOfItself(Components(q));
  }

  lemma {:induction false} PrefixOfItself(p: seq<string>)
    ensures Prefix(p, p)
    decreases |p|
  {
    if p != [] { PrefixOfItself(p[1..]); }
  }

  /** A path defined twice by way of another. */
  lemma RefusedOptions()
    ensures var twice := ManagedState([], [("a", Null), ("a.b", Null)]);
      && ValidState(twice) && BodyLines(twice).Some?
      && ReadModule(JoinLines(HEADING + BodyLines(twice).value + ["}", ""])) == Unreadable
  {
    OneComponent("a");
    TwoComponents("a", "b");
    assert "a" + ("." + "b") == "a.b";
    TwoOptions("a", "a.b");
  }

  /** A package list beside an option of its path. */
  lemma RefusedPackages()
    ensures var both := ManagedState(["git"], [(SYSTEM_PACKAGES, Null)]);
      && ValidState(both) && BodyLines(both).Some?
      && ReadModule(JoinLines(HEADING + BodyLines(both).value + ["}", ""])) == Unreadable
  {
    OneComponent("git");
    SystemPackages();
    PackagesAndOption("git", SYSTEM_PACKAGES);
  }
}
