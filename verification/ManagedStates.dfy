/** The managed state: reading it from JSON, normalizing it, and migrating older forms. */
module ManagedStates {
  import opened Basics
  import opened NixGenerator
  import M = NixModule

  /** A JSON object. */
  type Object = map<string, Value>

  datatype State = State(version: Value, packages: seq<string>, options: Object)

  /** What the settings catalog knows about an option. */
  datatype Setting =
    | Boolean
    | Text(accepts: string -> bool)
    | Integer(minimum: Option<int>, maximum: Option<int>)
    | TextList
    | IntegerList(minimum: Option<int>, maximum: Option<int>)

  type Catalog = map<string, Setting>

  const MAX_TEXT: nat := 512
  const MAX_ITEMS: nat := 128
  const MAX_ITEM: nat := 256

  predicate InRange(n: int, minimum: Option<int>, maximum: Option<int>) {
    (minimum.Some? ==> n >= minimum.value) && (maximum.Some? ==> n <= maximum.value)
  }

  predicate ItemFits(s: Setting, item: Value) {
    match s
    case TextList => item.Str? && 0 < |item.s| <= MAX_ITEM
    case IntegerList(minimum, maximum) => item.Int? && InRange(item.n, minimum, maximum)
    case _ => false
  }

  /** The items without repetitions, each where it first stood. */
  function Deduplicated(items: seq<Value>): seq<Value> {
    if items == [] then [] else
      var before := Deduplicated(items[..|items| - 1]);
      if items[|items| - 1] in before then before else before + [items[|items| - 1]]
  }

  /** The value a catalog setting is stored with, or nothing when it is not acceptable. */
  function Normalized(s: Setting, v: Value): Option<Value> {
    match s
    case Boolean => if v.Bool? then Some(v) else None
    case Text(accepts) => if v.Str? && |v.s| <= MAX_TEXT && accepts(v.s) then Some(v) else None
    case Integer(minimum, maximum) => if v.Int? && InRange(v.n, minimum, maximum) then Some(v) else None
    case _ =>
      if v.List? && |v.items| <= MAX_ITEMS && forall item <- v.items :: ItemFits(s, item)
      then Some(List(Deduplicated(v.items))) else None
  }

  /** The list branch as it runs: one item after the other. */
  method NormalizeList(s: Setting, items: seq<Value>) returns (r: Option<Value>)
    requires s.TextList? || s.IntegerList?
    ensures r == Normalized(s, List(items))
  {
    if |items| > MAX_ITEMS {
      return None;
    }
    var normalized: seq<Value> := [];
    for k := 0 to |items|
      invariant normalized == Deduplicated(items[..k]) && forall item <- items[..k] :: ItemFits(s, item)
    {
      if !ItemFits(s, items[k]) {
        return None;
      }
      assert items[..k + 1][..k] == items[..k];
      if items[k] !in normalized {
        normalized := normalized + [items[k]];
      }
    }
    assert items[..|items|] == items;
    r := Some(List(normalized));
  }

  predicate NoRepeats(items: seq<Value>) {
    forall i, j :: 0 <= i < j < |items| ==> items[i] != items[j]
  }

  lemma {:induction false} DeduplicatedHasNoRepeats(items: seq<Value>)
    ensures NoRepeats(Deduplicated(items)) && |Deduplicated(items)| <= |items|
    ensures forall item :: item in Deduplicated(items) <==> item in items
  {
    if items != [] {
      DeduplicatedHasNoRepeats(items[..|items| - 1]);
      assert items == items[..|items| - 1] + [items[|items| - 1]];
    }
  }

  lemma {:induction false} NothingToDeduplicate(items: seq<Value>)
    requires NoRepeats(items)
    ensures Deduplicated(items) == items
  {
    if items != [] {
      NothingToDeduplicate(items[..|items| - 1]);
      assert items == items[..|items| - 1] + [items[|items| - 1]];
    }
  }

  lemma NormalizedTwice(s: Setting, v: Value)
    requires Normalized(s, v).Some?
    ensures Normalized(s, Normalized(s, v).value) == Normalized(s, v)
  {
    if v.List? {
      DeduplicatedHasNoRepeats(v.items);
      NothingToDeduplicate(Deduplicated(v.items));
    }
  }

  /** Where the item first stands. */
  function FirstAt(items: seq<Value>, item: Value): (i: nat)
    requires item in items
    ensures i < |items| && items[i] == item && item !in items[..i]
  {
    if items[0] == item then 0 else 1 + FirstAt(items[1..], item)
  }

  /** The same items, each once, in the order of their first places. */
  ghost predicate FirstPlaces(items: seq<Value>, kept: seq<Value>) {
    && (forall item :: item in kept <==> item in items)
    && forall i, j :: 0 <= i < j < |kept| ==> FirstAt(items, kept[i]) < FirstAt(items, kept[j])
  }

  lemma {:induction false} FirstStays(items: seq<Value>, more: seq<Value>, item: Value)
    requires item in items
    ensures item in items + more && FirstAt(items + more, item) == FirstAt(items, item)
  {
    if items[0] != item {
      FirstStays(items[1..], more, item);
      assert (items + more)[1..] == items[1..] + more;
    }
  }

  lemma {:induction false} DeduplicatedKeepsFirst(items: seq<Value>)
    ensures FirstPlaces(items, Deduplicated(items))
  {
    DeduplicatedHasNoRepeats(items);
    if items != [] {
      var init, last := items[..|items| - 1], items[|items| - 1];
      DeduplicatedKeepsFirst(init);
      DeduplicatedHasNoRepeats(init);
      assert items == init + [last];
      var kept := Deduplicated(init);
      forall item | item in init ensures FirstAt(items, item) == FirstAt(init, item) < |init| {
        FirstStays(init, [last], item);
      }
      forall i, j | 0 <= i < j < |Deduplicated(items)|
        ensures FirstAt(items, Deduplicated(items)[i]) < FirstAt(items, Deduplicated(items)[j])
      {
        assert kept[i] in init;
        if j < |kept| {
          assert kept[j] in init;
        } else {
          assert FirstAt(items, last) == |init| by { assert last !in init; }
        }
      }
    }
  }

  /** Which values a catalog setting accepts, and how it stores them: as they are, but for the repetitions in a
      list. */
  lemma NormalizedExactly(s: Setting, v: Value)
    ensures Normalized(s, v).Some? <==>
      match s
      case Boolean => v.Bool?
      case Text(accepts) => v.Str? && |v.s| <= 512 && accepts(v.s)
      case Integer(minimum, maximum) =>
        v.Int? && (minimum.Some? ==> minimum.value <= v.n) && (maximum.Some? ==> v.n <= maximum.value)
      case TextList => v.List? && |v.items| <= 128 && forall item <- v.items :: item.Str? && 1 <= |item.s| <= 256
      case IntegerList(minimum, maximum) =>
        v.List? && |v.items| <= 128
        && forall item <- v.items ::
             item.Int? && (minimum.Some? ==> minimum.value <= item.n) && (maximum.Some? ==> item.n <= maximum.value)
    ensures Normalized(s, v).Some? ==> StoredAs(v, Normalized(s, v).value)
  {
    if v.List? {
      DeduplicatedKeepsFirst(v.items);
    }
  }

  ghost predicate StoredAs(v: Value, stored: Value) {
    if v.List? then stored.List? && FirstPlaces(v.items, stored.items) else stored == v
  }

  /** No attribute name inside the value is empty. */
  predicate NamesPresent(v: Value) {
    match v
    case List(items) => forall item <- items :: NamesPresent(item)
    case Attrs(fields) => forall k <- fields :: k != "" && NamesPresent(fields[k])
    case _ => true
  }

  function NormalizedOption(catalog: Catalog, path: string, v: Value): Option<Value> {
    if !M.AttributePath(path) || !NamesPresent(v) then None
    else if path in catalog then Normalized(catalog[path], v)
    else Some(v)
  }

  predicate IsOne(version: Value) {
    version == Int(1) || version == Bool(true)
  }

  /** The options with each value normalized, or nothing when one is not acceptable. */
  function NormalizedOptions(catalog: Catalog, options: Object): Option<Object> {
    if forall path <- options :: NormalizedOption(catalog, path, options[path]).Some?
    then Some(map path | path in options :: NormalizedOption(catalog, path, options[path]).value)
    else None
  }

  function Field(raw: Object, name: string, missing: Value): Value {
    if name in raw then raw[name] else missing
  }

  predicate PackageNames(v: Value) {
    v.List? && forall item <- v.items :: item.Str? && M.AttributePath(item.s)
  }

  function Names(items: seq<Value>): set<string> {
    set item | item in items && item.Str? :: item.s
  }

  const FIELDS: set<string> := {"schemaVersion", "packages", "options"}

  /** Reads a state from a JSON object. What the explicit settings require of each other is `consistent`. */
  function FromMapping(catalog: Catalog, consistent: Object -> bool, raw: Object): Option<State> {
    var version := Field(raw, "schemaVersion", Int(1));
    var packages := Field(raw, "packages", List([]));
    var options := Field(raw, "options", Attrs(map[]));
    if !(raw.Keys <= FIELDS) || !IsOne(version) || !PackageNames(packages) || !options.Attrs? then None
    else match NormalizedOptions(catalog, options.fields)
      case None => None
      case Some(normalized) =>
        if consistent(normalized) then Some(State(version, SortedKeys(Names(packages.items)), normalized)) else None
  }

  /** The attribute names inside a value. */
  function NamesIn(v: Value): set<string> {
    match v
    case List(items) => set item, name | item in items && name in NamesIn(item) :: name
    case Attrs(fields) => fields.Keys + set k, name | k in fields && name in NamesIn(fields[k]) :: name
    case _ => {}
  }

  lemma {:induction false} NoEmptyName(v: Value)
    ensures NamesPresent(v) <==> "" !in NamesIn(v)
  {
    match v {
      case List(items) =>
        forall item | item in items ensures NamesPresent(item) <==> "" !in NamesIn(item) {
          NoEmptyName(item);
        }
      case Attrs(fields) =>
        forall k | k in fields ensures NamesPresent(fields[k]) <==> "" !in NamesIn(fields[k]) {
          NoEmptyName(fields[k]);
        }
      case _ =>
    }
  }

  lemma OptionsExactly(catalog: Catalog, options: Object)
    ensures NormalizedOptions(catalog, options).Some? <==>
      forall path <- options ::
        && M.AttributePath(path) && "" !in NamesIn(options[path])
        && (path in catalog ==> Normalized(catalog[path], options[path]).Some?)
    ensures NormalizedOptions(catalog, options).Some? ==>
      NormalizedOptions(catalog, options).value == map path | path in options ::
        if path in catalog then Normalized(catalog[path], options[path]).value else options[path]
  {
    forall path | path in options ensures NamesPresent(options[path]) <==> "" !in NamesIn(options[path]) {
      NoEmptyName(options[path]);
    }
    hide NamesIn, M.AttributePath, Normalized;
  }

  /** Which objects read as a state. */
  lemma ReadsExactly(catalog: Catalog, consistent: Object -> bool, raw: Object)
    ensures FromMapping(catalog, consistent, raw).Some? <==>
      && (forall name <- raw :: name in ["schemaVersion", "packages", "options"])
      && ("schemaVersion" in raw ==> raw["schemaVersion"] in [Int(1), Bool(true)])
      && ("packages" in raw ==>
           && raw["packages"].List?
           && forall item <- raw["packages"].items :: item.Str? && M.AttributePath(item.s))
      && ("options" in raw ==>
           && raw["options"].Attrs?
           && forall path <- raw["options"].fields ::
                && M.AttributePath(path) && "" !in NamesIn(raw["options"].fields[path])
                && (path in catalog ==> Normalized(catalog[path], raw["options"].fields[path]).Some?))
      && (var given := if "options" in raw then raw["options"].fields else map[];
          consistent(map path | path in given ::
            if path in catalog then Normalized(catalog[path], given[path]).value else given[path]))
  {
    var given := Field(raw, "options", Attrs(map[]));
    if given.Attrs? {
      OptionsExactly(catalog, given.fields);
    }
    hide NormalizedOptions, NamesIn, M.AttributePath, Normalized;
  }

  /** What a state is that was read: its packages are the names listed, in order and each once; its options are
      those given, and each is stored as it was given, but for the repetitions in a list of a catalog setting. */
  lemma ReadingKeeps(catalog: Catalog, consistent: Object -> bool, raw: Object)
    requires FromMapping(catalog, consistent, raw).Some?
    ensures var s := FromMapping(catalog, consistent, raw).value;
      && Sorted(s.packages)
      && (forall name :: name in s.packages <==>
           "packages" in raw && raw["packages"].List? && Str(name) in raw["packages"].items)
      && s.version == (if "schemaVersion" in raw then raw["schemaVersion"] else Int(1))
      && consistent(s.options)
      && (if "options" in raw then raw["options"].Attrs? && s.options.Keys == raw["options"].fields.Keys
          else s.options == map[])
    ensures var s := FromMapping(catalog, consistent, raw).value;
      forall path <- s.options ::
        && "options" in raw && raw["options"].Attrs? && path in raw["options"].fields
        && M.AttributePath(path)
        && if path in catalog then StoredAs(raw["options"].fields[path], s.options[path])
           else s.options[path] == raw["options"].fields[path]
  {
    var s := FromMapping(catalog, consistent, raw).value;
    forall path | path in s.options && path in catalog
      ensures StoredAs(raw["options"].fields[path], s.options[path])
    {
      NormalizedExactly(catalog[path], raw["options"].fields[path]);
    }
  }

  function Strings(names: seq<string>): seq<Value> {
    seq(|names|, i requires 0 <= i < |names| => Str(names[i]))
  }

  function ToMapping(s: State): Object {
    map["schemaVersion" := s.version, "packages" := List(Strings(s.packages)), "options" := Attrs(s.options)]
  }

  /** Reading is idempotent: a state that was read is what its own mapping reads as. */
  lemma ReadingTwice(catalog: Catalog, consistent: Object -> bool, raw: Object)
    requires FromMapping(catalog, consistent, raw).Some?
    ensures var s := FromMapping(catalog, consistent, raw).value;
      FromMapping(catalog, consistent, ToMapping(s)) == Some(s)
  {
    var s := FromMapping(catalog, consistent, raw).value;
    var options := Field(raw, "options", Attrs(map[])).fields;
    OptionsTwice(catalog, options);
    var packages := Field(raw, "packages", List([])).items;
    PackagesTwice(packages);
    MappingFields(s);
  }

  lemma MappingFields(s: State)
    ensures ToMapping(s).Keys <= FIELDS
    ensures Field(ToMapping(s), "schemaVersion", Int(1)) == s.version
    ensures Field(ToMapping(s), "packages", List([])) == List(Strings(s.packages))
    ensures Field(ToMapping(s), "options", Attrs(map[])) == Attrs(s.options)
  {
  }

  lemma OptionsTwice(catalog: Catalog, options: Object)
    requires NormalizedOptions(catalog, options).Some?
    ensures NormalizedOptions(catalog, NormalizedOptions(catalog, options).value) == NormalizedOptions(catalog, options)
  {
    var once := NormalizedOptions(catalog, options).value;
    forall path | path in once ensures NormalizedOption(catalog, path, once[path]) == Some(once[path]) {
      if path in catalog {
        NormalizedTwice(catalog[path], options[path]);
        FlatNames(catalog[path], options[path]);
      }
    }
    assert (map path | path in once :: NormalizedOption(catalog, path, once[path]).value) == once;
  }

  lemma FlatNames(s: Setting, v: Value)
    requires Normalized(s, v).Some?
    ensures NamesPresent(Normalized(s, v).value)
  {
    if v.List? {
      DeduplicatedHasNoRepeats(v.items);
    }
  }

  lemma StringsAreNames(names: set<string>)
    requires forall name <- names :: M.AttributePath(name)
    ensures PackageNames(List(Strings(SortedKeys(names)))) && Names(Strings(SortedKeys(names))) == names
  {
    var sorted := SortedKeys(names);
    forall item | item in Strings(sorted) ensures item.Str? && M.AttributePath(item.s) {
      var i :| 0 <= i < |sorted| && item == Str(sorted[i]);
      assert sorted[i] in names;
    }
    forall name ensures name in Names(Strings(sorted)) <==> name in sorted {
      if name in sorted {
        var i :| 0 <= i < |sorted| && sorted[i] == name;
        assert Strings(sorted)[i] == Str(name);
      }
    }
  }

  lemma PackagesTwice(items: seq<Value>)
    requires PackageNames(List(items))
    ensures PackageNames(List(Strings(SortedKeys(Names(items)))))
    ensures Names(Strings(SortedKeys(Names(items)))) == Names(items)
  {
    StringsAreNames(Names(items));
  }

  const FLAGS: seq<string> := ["enabled", "selected", "installed"]

  /** A package of the legacy map counts as selected: a plain yes, or an object whose selection flags are
      all booleans and one of them true. */
  predicate LegacySelected(v: Value) {
    match v
    case Bool(b) => b
    case Attrs(fields) =>
      && (forall flag <- FLAGS :: flag in fields ==> fields[flag].Bool?)
      && (exists flag <- FLAGS :: flag in fields && fields[flag] == Bool(true))
    case _ => false
  }

  /** A package is left out with a warning: it is neither a plain yes or no nor nothing, nor an object with a
      selection flag and only boolean ones. */
  predicate LegacyUnclear(v: Value) {
    match v
    case Null => false
    case Bool(_) => false
    case Attrs(fields) =>
      || (forall flag <- FLAGS :: flag !in fields)
      || (exists flag <- FLAGS :: flag in fields && !fields[flag].Bool?)
    case _ => true
  }

  /** The decision on one package as it runs: which flags there are, whether all are booleans, whether one is
      true. */
  method SelectLegacy(v: Value) returns (selected: bool, unclear: bool)
    ensures selected == LegacySelected(v) && unclear == LegacyUnclear(v)
  {
    match v {
      case Bool(b) => return b, false;
      case Null => return false, false;
      case Attrs(fields) =>
        selected, unclear := SelectByFlags(fields);
      case _ => return false, true;
    }
  }

  method SelectByFlags(fields: Object) returns (selected: bool, unclear: bool)
    ensures selected == LegacySelected(Attrs(fields)) && unclear == LegacyUnclear(Attrs(fields))
  {
    var present: seq<string> := [];
    for k := 0 to |FLAGS|
      invariant forall flag :: flag in present <==> flag in FLAGS[..k] && flag in fields
    {
      if FLAGS[k] in fields {
        present := present + [FLAGS[k]];
      }
    }
    assert forall flag :: flag in present <==> flag in FLAGS && flag in fields;
    if present == [] {
      assert forall flag <- FLAGS :: flag !in present;
      return false, true;
    }
    assert present[0] in FLAGS && present[0] in fields;
    selected := false;
    for k := 0 to |present|
      invariant forall flag <- present[..k] :: fields[flag].Bool?
      invariant selected <==> exists flag <- present[..k] :: fields[flag] == Bool(true)
    {
      assert present[k] in FLAGS && present[k] in fields;
      if !fields[present[k]].Bool? {
        return false, true;
      }
      selected := selected || fields[present[k]].b;
    }
    assert present[..|present|] == present;
    unclear := false;
  }

  datatype Format = Current | LegacyPackageMap

  /** `unclear` are the packages left out with a warning, `ignored` the other fields. */
  datatype Migration = Migration(state: State, format: Format, unclear: set<string>, ignored: set<string>) {
    predicate Required() {
      format != Current || ignored != {}
    }
  }

  function LegacyNames(fields: Object): set<string> {
    set name | name in fields && LegacySelected(fields[name])
  }

  function UnclearNames(fields: Object): set<string> {
    set name | name in fields && LegacyUnclear(fields[name])
  }

  /** The packages field in today's form. */
  function CurrentPackages(packages: Value): Option<(Value, Format, set<string>)> {
    match packages
    case List(_) => Some((packages, Current, {}))
    case Attrs(fields) =>
      if forall name <- fields :: M.AttributePath(name) then
        Some((List(Strings(SortedKeys(LegacyNames(fields)))), LegacyPackageMap, UnclearNames(fields)))
      else None
    case _ => None
  }

  lemma FirstIsIn(s: seq<string>)
    ensures s == [] || s[0] in s
  {
  }

  lemma {:induction false} OneOrder(a: seq<string>, b: seq<string>)
    requires Sorted(a) && Sorted(b) && forall k :: k in a <==> k in b
    ensures a == b
    decreases |a|
  {
    FirstIsIn(b);
    if a != [] {
      assert a[0] in b && b != [];
      assert b[0] in a;
      if a[0] != b[0] {
        Antisymmetric(a[0], b[0]);
      }
      forall k ensures k in a[1..] <==> k in b[1..] {
        assert k in a <==> k in [a[0]] + a[1..];
        assert k in b <==> k in [b[0]] + b[1..];
        assert a[0] !in a[1..] && b[0] !in b[1..];
      }
      OneOrder(a[1..], b[1..]);
      assert a == [a[0]] + a[1..] && b == [b[0]] + b[1..];
    }
  }

  lemma NoNames()
    ensures Sorted([])
  {
  }

  /** What was taken from a sorted list so far stays sorted with the next name. */
  lemma NextName(names: seq<string>, k: nat, kept: seq<string>)
    requires Sorted(names) && k < |names| && Sorted(kept) && forall name <- kept :: name in names[..k]
    ensures Sorted(kept + [names[k]]) && names[k] !in names[..k]
  {
    forall i | 0 <= i < |kept| ensures kept[i] != names[k] && AtMost(kept[i], names[k]) {
      assert kept[i] in names[..k];
    }
  }

  /** The legacy branch as it runs: one package after the other in the order of their names, up to a bad
      name. */
  method LegacyPackages(fields: Object) returns (r: Option<seq<string>>, unclear: set<string>)
    ensures CurrentPackages(Attrs(fields)) ==
      if r.Some? then Some((List(Strings(r.value)), LegacyPackageMap, unclear)) else None
  {
    hide LegacySelected, LegacyUnclear, Sorted, M.AttributePath;
    var names, kept := SortedKeys(fields.Keys), [];
    unclear := {};
    NoNames();
    for k := 0 to |names|
      invariant forall name <- names[..k] :: M.AttributePath(name)
      invariant Sorted(kept)
      invariant forall name :: name in kept <==> name in names[..k] && LegacySelected(fields[name])
      invariant unclear == set name | name in names[..k] && LegacyUnclear(fields[name])
    {
      assert names[k] in fields;
      if !M.AttributePath(names[k]) {
        return None, {};
      }
      var selected, doubtful := SelectLegacy(fields[names[k]]);
      NextName(names, k, kept);
      if selected {
        kept := kept + [names[k]];
      }
      if doubtful {
        unclear := unclear + {names[k]};
      }
    }
    assert names[..|names|] == names;
    OneOrder(kept, SortedKeys(LegacyNames(fields)));
    assert unclear == UnclearNames(fields);
    r := Some(kept);
  }

  /** What migrating reads: the three fields, with the packages in today's form. */
  function Normal(raw: Object, packages: Value): Object {
    map["schemaVersion" := Field(raw, "schemaVersion", Int(1)), "packages" := packages,
      "options" := Field(raw, "options", Attrs(map[]))]
  }

  function Migrate(catalog: Catalog, consistent: Object -> bool, raw: Object): Option<Migration> {
    var version := Field(raw, "schemaVersion", Int(1));
    if !IsOne(version) then None
    else match CurrentPackages(Field(raw, "packages", List([])))
      case None => None
      case Some((packages, format, unclear)) =>
        match FromMapping(catalog, consistent, Normal(raw, packages))
        case None => None
        case Some(state) => Some(Migration(state, format, unclear, raw.Keys - FIELDS))
  }

  /** The whole migration as it runs. */
  method PreviewMigration(catalog: Catalog, consistent: Object -> bool, raw: Object) returns (r: Option<Migration>)
    ensures r == Migrate(catalog, consistent, raw)
  {
    var version := Field(raw, "schemaVersion", Int(1));
    if !IsOne(version) {
      return None;
    }
    var field := Field(raw, "packages", List([]));
    var packages, format, unclear := field, Current, {};
    match field {
      case List(_) =>
      case Attrs(fields) =>
        var names, warned := LegacyPackages(fields);
        if names.None? {
          return None;
        }
        packages, format, unclear := List(Strings(names.value)), LegacyPackageMap, warned;
      case _ => return None;
    }
    assert CurrentPackages(field) == Some((packages, format, unclear));
    hide FromMapping, CurrentPackages, Normal;
    var state := FromMapping(catalog, consistent, Normal(raw, packages));
    r := if state.None? then None else Some(Migration(state.value, format, unclear, raw.Keys - FIELDS));
  }

  /** The fields of a legacy state beside its package map. */
  function WithoutPackages(raw: Object): Object {
    map field | field in raw && field in {"schemaVersion", "options"} :: raw[field]
  }

  lemma FieldsBeside(raw: Object, packages: Value)
    ensures WithoutPackages(raw).Keys <= FIELDS && Normal(raw, packages).Keys <= FIELDS
    ensures Field(WithoutPackages(raw), "schemaVersion", Int(1)) == Field(raw, "schemaVersion", Int(1))
    ensures Field(WithoutPackages(raw), "packages", List([])) == List([])
    ensures Field(WithoutPackages(raw), "options", Attrs(map[])) == Field(raw, "options", Attrs(map[]))
    ensures Field(Normal(raw, packages), "schemaVersion", Int(1)) == Field(raw, "schemaVersion", Int(1))
    ensures Field(Normal(raw, packages), "packages", List([])) == packages
    ensures Field(Normal(raw, packages), "options", Attrs(map[])) == Field(raw, "options", Attrs(map[]))
  {
  }

  /** Valid package names change nothing else in what is read. */
  lemma ReadsBeside(catalog: Catalog, consistent: Object -> bool, raw: Object, names: set<string>)
    requires forall name <- names :: M.AttributePath(name)
    ensures var rest := FromMapping(catalog, consistent, WithoutPackages(raw));
      && (rest.Some? ==> IsOne(Field(raw, "schemaVersion", Int(1))) && rest.value.packages == [])
      && FromMapping(catalog, consistent, Normal(raw, List(Strings(SortedKeys(names))))) ==
           if rest.Some? then Some(rest.value.(packages := SortedKeys(names))) else None
  {
    StringsAreNames(names);
    FieldsBeside(raw, List(Strings(SortedKeys(names))));
    assert Names([]) == {};
    hide WithoutPackages, Normal, Field, NormalizedOptions;
  }

  lemma FlagsByHand(v: Value)
    ensures LegacySelected(v) <==>
      || v == Bool(true)
      || (&& v.Attrs?
          && (forall flag <- {"enabled", "selected", "installed"} :: flag in v.fields ==> v.fields[flag].Bool?)
          && exists flag <- {"enabled", "selected", "installed"} :: flag in v.fields && v.fields[flag] == Bool(true))
  {
    assert forall flag :: flag in FLAGS <==> flag in {"enabled", "selected", "installed"};
  }

  lemma LegacyComesTo(catalog: Catalog, consistent: Object -> bool, raw: Object)
    requires "packages" in raw && raw["packages"].Attrs?
    ensures var fields, rest := raw["packages"].fields, FromMapping(catalog, consistent, WithoutPackages(raw));
      Migrate(catalog, consistent, raw) ==
        if (forall name <- fields :: M.AttributePath(name)) && rest.Some? then
          Some(Migration(rest.value.(packages := SortedKeys(LegacyNames(fields))), LegacyPackageMap,
            UnclearNames(fields), raw.Keys - FIELDS))
        else None
    ensures FromMapping(catalog, consistent, WithoutPackages(raw)).Some? ==>
      FromMapping(catalog, consistent, WithoutPackages(raw)).value.packages == []
  {
    var fields := raw["packages"].fields;
    NoPackages(catalog, consistent, raw);
    hide FromMapping, WithoutPackages, Normal, LegacyNames, UnclearNames, M.AttributePath;
    if forall name <- fields :: M.AttributePath(name) {
      ReadsBeside(catalog, consistent, raw, LegacyNames(fields));
    }
  }

  lemma NoPackages(catalog: Catalog, consistent: Object -> bool, raw: Object)
    ensures FromMapping(catalog, consistent, WithoutPackages(raw)).Some? ==>
      FromMapping(catalog, consistent, WithoutPackages(raw)).value.packages == []
  {
    ReadsBeside(catalog, consistent, raw, {});
  }

  /** What migrating a legacy package map comes to. It raises exactly for a name that is no attribute path, or
      when the state without its packages does not read. Otherwise its packages are, in order, those whose value
      is true, or is an object with at least one of the three flags, all that it has boolean and one of them
      true; everything else is what the state without packages reads as. */
  lemma MigratingLegacy(catalog: Catalog, consistent: Object -> bool, raw: Object)
    requires "packages" in raw && raw["packages"].Attrs?
    ensures var fields, rest := raw["packages"].fields, FromMapping(catalog, consistent, WithoutPackages(raw));
      Migrate(catalog, consistent, raw).Some? <==> (forall name <- fields :: M.AttributePath(name)) && rest.Some?
    ensures Migrate(catalog, consistent, raw).Some? ==>
      var m, fields := Migrate(catalog, consistent, raw).value, raw["packages"].fields;
      && Sorted(m.state.packages)
      && (forall name :: name in m.state.packages <==>
           && name in fields
           && (|| fields[name] == Bool(true)
               || (&& fields[name].Attrs?
                   && (forall flag <- {"enabled", "selected", "installed"} ::
                        flag in fields[name].fields ==> fields[name].fields[flag].Bool?)
                   && exists flag <- {"enabled", "selected", "installed"} ::
                        flag in fields[name].fields && fields[name].fields[flag] == Bool(true))))
      && FromMapping(catalog, consistent, WithoutPackages(raw)) == Some(m.state.(packages := []))
      && m.Required() && m.ignored == raw.Keys - {"schemaVersion", "packages", "options"}
  {
    var fields := raw["packages"].fields;
    LegacyComesTo(catalog, consistent, raw);
    hide Migrate, FromMapping, WithoutPackages, LegacySelected, LegacyUnclear, M.AttributePath;
    forall name | name in fields {
      FlagsByHand(fields[name]);
    }
  }

  /** Migrating is idempotent: a migrated state's own mapping migrates to the same state, and needs no
      migration any more. */
  lemma MigratingTwice(catalog: Catalog, consistent: Object -> bool, raw: Object)
    requires Migrate(catalog, consistent, raw).Some?
    ensures var s := Migrate(catalog, consistent, raw).value.state;
      && Migrate(catalog, consistent, ToMapping(s)) == Some(Migration(s, Current, {}, {}))
      && !Migrate(catalog, consistent, ToMapping(s)).value.Required()
  {
    hide FromMapping, ToMapping, Normal;
    var s := MigratedIsRead(catalog, consistent, raw);
    MappingIsCurrent(s);
    assert FromMapping(catalog, consistent, Normal(ToMapping(s), List(Strings(s.packages)))) == Some(s);
  }

  lemma MigratedIsRead(catalog: Catalog, consistent: Object -> bool, raw: Object) returns (s: State)
    requires Migrate(catalog, consistent, raw).Some?
    ensures s == Migrate(catalog, consistent, raw).value.state
    ensures IsOne(s.version) && FromMapping(catalog, consistent, ToMapping(s)) == Some(s)
  {
    s := Migrate(catalog, consistent, raw).value.state;
    hide Normal, ToMapping;
    ReadingTwice(catalog, consistent, Normal(raw, CurrentPackages(Field(raw, "packages", List([]))).value.0));
  }

  lemma MappingIsCurrent(s: State)
    ensures Normal(ToMapping(s), List(Strings(s.packages))) == ToMapping(s)
    ensures Field(ToMapping(s), "schemaVersion", Int(1)) == s.version
    ensures CurrentPackages(Field(ToMapping(s), "packages", List([]))) == Some((List(Strings(s.packages)), Current, {}))
    ensures ToMapping(s).Keys - FIELDS == {}
  {
    MappingFields(s);
  }

  /** On today's form migrating and reading give the same state. */
  lemma MigratingCurrentIsReading(catalog: Catalog, consistent: Object -> bool, raw: Object)
    requires FromMapping(catalog, consistent, raw).Some?
    ensures Migrate(catalog, consistent, raw) ==
      Some(Migration(FromMapping(catalog, consistent, raw).value, Current, {}, {}))
  {
    var version := Field(raw, "schemaVersion", Int(1));
    var packages := Field(raw, "packages", List([]));
    var options := Field(raw, "options", Attrs(map[]));
    var normalized := map["schemaVersion" := version, "packages" := packages, "options" := options];
    assert normalized.Keys <= FIELDS;
    assert raw.Keys - FIELDS == {};
  }
}
