/** Planning the two managed files, and the helper's rebuilding of a submitted plan. */
module ManagedPlans {
  import opened Basics
  import J = JournalModel
  import opened NixGenerator
  import opened ManagedStates
  import M = NixModule
  import R = NixReader
  import T = NixText

  /** The two managed files, `ncm/state.json` and `ncm/packages.nix`, and any other. */
  datatype Path = StateFile | ModuleFile | Elsewhere(name: string)

  type Files = map<Path, string>

  datatype Mode = Channels | Flake | Unreadable

  /** JSON text, both ways, and the rest of the machine: what the catalog allows, the mode that inspection
      finds, and the target it suggests. */
  datatype Context = Context(
    dump: Object -> string, load: string -> Option<Object>,
    catalog: Catalog, consistent: Object -> bool,
    mode: Mode, suggested: string)

  /** Dumping and loading JSON are inverse. */
  ghost predicate JsonInverse(c: Context) {
    forall o :: c.load(c.dump(o) + "\n") == Some(o)
  }

  function Read(c: Context, text: string): Option<State> {
    match c.load(text)
    case None => None
    case Some(raw) => FromMapping(c.catalog, c.consistent, raw)
  }

  function Serialize(c: Context, s: State): string {
    c.dump(ToMapping(s)) + "\n"
  }

  /** The options in the order in which the state holds them. */
  function Ordered(options: Object, paths: seq<string>): seq<(string, Value)>
    requires forall p <- paths :: p in options
  {
    if paths == [] then [] else [(paths[0], options[paths[0]])] + Ordered(options, paths[1..])
  }

  function ModuleState(s: State): M.ManagedState {
    M.ManagedState(s.packages, Ordered(s.options, SortedKeys(s.options.Keys)))
  }

  /** The module text, or nothing when it cannot be rendered. */
  function Generate(s: State): Option<string> {
    match M.BodyLines(ModuleState(s))
    case None => None
    case Some(body) => Some(T.JoinLines(M.HEADING + body + ["}", ""]))
  }

  /** A planned change of one file; a file that is not there counts as empty. */
  datatype FileChange = FileChange(path: Path, create: bool, previous: string, candidate: string)

  function ChangeOf(files: Files, path: Path, candidate: string): seq<FileChange> {
    var previous := if path in files then files[path] else "";
    if previous == candidate then [] else [FileChange(path, path !in files, previous, candidate)]
  }

  datatype Plan = Plan(mode: Mode, target: Option<string>, state: State, changes: seq<FileChange>)

  /** Plans the two files for a state, or raises. */
  function PlanState(c: Context, files: Files, s: State, target: Option<string>): Option<Plan> {
    if c.mode.Unreadable? then None
    else
      match Generate(s)
      case None => None
      case Some(text) => Some(Plan(c.mode, Effective(c, target), s, Changes(files, Serialize(c, s), text)))
  }

  function Effective(c: Context, target: Option<string>): Option<string> {
    if c.mode.Flake? && (target.None? || target.value == "") then Some(c.suggested) else target
  }

  function Changes(files: Files, state: string, mod: string): seq<FileChange> {
    ChangeOf(files, StateFile, state) + ChangeOf(files, ModuleFile, mod)
  }

  /** What the client submits for one file. */
  datatype Candidate = Candidate(create: bool, previous: Option<J.Digest>, digest: J.Digest, text: string)

  function CandidateOf(f: FileChange): Candidate {
    Candidate(f.create, if f.create then None else Some(J.Sha256(f.previous)), J.Sha256(f.candidate), f.candidate)
  }

  function Candidates(changes: seq<FileChange>): map<Path, Candidate> {
    if changes == [] then map[]
    else Candidates(changes[..|changes| - 1])[changes[|changes| - 1].path := CandidateOf(changes[|changes| - 1])]
  }

  /** The digest of the plan: the root is fixed, the diffs and reasons are not part of it. */
  datatype Identity = Identity(mode: Mode, target: Option<string>,
    changes: seq<(Path, bool, Option<J.Digest>, J.Digest)>)

  function IdentityOf(p: Plan): Identity {
    Identity(p.mode, p.target, seq(|p.changes|, i requires 0 <= i < |p.changes| =>
      (p.changes[i].path, p.changes[i].create, CandidateOf(p.changes[i]).previous, CandidateOf(p.changes[i]).digest)))
  }

  datatype Request = Request(fingerprint: Identity, candidates: map<Path, Candidate>)

  /** The client's request, unless there is nothing to change. */
  function BuildRequest(c: Context, files: Files, s: State, target: Option<string>): Option<Request> {
    match PlanState(c, files, s, target)
    case None => None
    case Some(p) => if p.changes == [] then None else Some(Request(IdentityOf(p), Candidates(p.changes)))
  }

  /** The state text that the helper goes by: the submitted one, else the one in place. */
  function StateText(files: Files, candidates: map<Path, Candidate>): Option<string> {
    if StateFile in candidates then Some(candidates[StateFile].text)
    else if StateFile in files then Some(files[StateFile])
    else None
  }

  /** The helper rebuilds the plan from that state, and accepts the request only if nothing differs. */
  function Match(c: Context, files: Files, q: Request, target: Option<string>): Option<Plan> {
    if !(q.candidates.Keys <= {StateFile, ModuleFile}) then None
    else match StateText(files, q.candidates)
      case None => None
      case Some(text) =>
        match Read(c, text)
        case None => None
        case Some(s) =>
          match PlanState(c, files, s, target)
          case None => None
          case Some(p) =>
            if p.changes == [] || IdentityOf(p) != q.fingerprint || Candidates(p.changes) != q.candidates then None
            else Some(p)
  }

  /** The state reads back from its own mapping, as every state does that was read. */
  predicate FixedPoint(c: Context, s: State) {
    FromMapping(c.catalog, c.consistent, ToMapping(s)) == Some(s)
  }

  lemma SerializedReadsBack(c: Context, s: State)
    requires JsonInverse(c) && FixedPoint(c, s)
    ensures Read(c, Serialize(c, s)) == Some(s) && Serialize(c, s) != ""
  {
    assert c.load(c.dump(ToMapping(s)) + "\n") == Some(ToMapping(s));
  }

  function TextAt(files: Files, path: Path): string {
    if path in files then files[path] else ""
  }

  /** What is submitted of a file for this text: nothing if it holds it, otherwise the text with its digest, and
      the digest of what is there. */
  predicate Submits(candidates: map<Path, Candidate>, files: Files, path: Path, text: string) {
    && (path in candidates <==> TextAt(files, path) != text)
    && (path in candidates ==>
         var previous := if path in files then Some(J.Sha256(files[path])) else None;
         candidates[path] == Candidate(path !in files, previous, J.Sha256(text), text))
  }

  /** One file more: what is submitted of it, and of every other as before. */
  lemma SubmitsMore(changes: seq<FileChange>, files: Files, path: Path, text: string)
    requires path !in Candidates(changes)
    ensures var more := Candidates(changes + ChangeOf(files, path, text));
      && Submits(more, files, path, text) && more.Keys <= Candidates(changes).Keys + {path}
      && forall other :: other != path ==>
           && (other in more <==> other in Candidates(changes))
           && (other in more ==> more[other] == Candidates(changes)[other])
  {
    var change := ChangeOf(files, path, text);
    if change == [] {
      assert changes + change == changes;
    } else {
      assert (changes + change)[..|changes|] == changes && change == [change[0]];
      assert Candidates(changes + change) == Candidates(changes)[path := CandidateOf(change[0])];
    }
  }

  lemma SubmitsBoth(files: Files, state: string, mod: string)
    ensures var candidates := Candidates(Changes(files, state, mod));
      && Submits(candidates, files, StateFile, state) && Submits(candidates, files, ModuleFile, mod)
      && candidates.Keys <= {StateFile, ModuleFile}
    ensures Changes(files, state, mod) == [] <==> TextAt(files, StateFile) == state && TextAt(files, ModuleFile) == mod
  {
    var first := ChangeOf(files, StateFile, state);
    assert [] + first == first;
    SubmitsMore([], files, StateFile, state);
    SubmitsMore(first, files, ModuleFile, mod);
    hide Candidates;
  }

  /** The state text is among the candidates of the two files, or in place. */
  lemma SubmittedCandidates(files: Files, state: string, mod: string)
    requires state != ""
    ensures var candidates := Candidates(Changes(files, state, mod));
      candidates.Keys <= {StateFile, ModuleFile} && StateText(files, candidates) == Some(state)
  {
    SubmitsBoth(files, state, mod);
  }

  /** The helper rebuilds exactly the client's plan, from the same files and target. */
  lemma HelperRebuildsThePlan(c: Context, files: Files, s: State, target: Option<string>)
    requires JsonInverse(c) && FixedPoint(c, s) && BuildRequest(c, files, s, target).Some?
    ensures Match(c, files, BuildRequest(c, files, s, target).value, target) == PlanState(c, files, s, target)
  {
    SerializedReadsBack(c, s);
    SubmittedCandidates(files, Serialize(c, s), Generate(s).value);
  }

  /** The file is changed exactly when it does not hold its text, and then from what is there to the text. */
  predicate IsChanged(cs: seq<FileChange>, files: Files, path: Path, text: string) {
    var change := FileChange(path, path !in files, TextAt(files, path), text);
    (change in cs <==> TextAt(files, path) != text) && forall f <- cs :: f.path == path ==> f == change
  }

  /** These are the changes of the two files, that of the state first. */
  predicate AreChanges(cs: seq<FileChange>, files: Files, state: string, mod: string) {
    && IsChanged(cs, files, StateFile, state) && IsChanged(cs, files, ModuleFile, mod)
    && (forall f <- cs :: f.path == StateFile || f.path == ModuleFile)
    && forall i, j :: 0 <= i < j < |cs| ==> cs[i].path == StateFile && cs[j].path == ModuleFile
  }

  lemma ChangesExactly(files: Files, state: string, mod: string)
    ensures AreChanges(Changes(files, state, mod), files, state, mod)
  {
    var first := FileChange(StateFile, StateFile !in files, TextAt(files, StateFile), state);
    var second := FileChange(ModuleFile, ModuleFile !in files, TextAt(files, ModuleFile), mod);
    var changed, both := TextAt(files, StateFile) != state, TextAt(files, ModuleFile) != mod;
    var cs := (if changed then [first] else []) + if both then [second] else [];
    assert Changes(files, state, mod) == cs;
    assert first in cs <==> changed;
    assert second in cs <==> both;
    hide TextAt, Changes;
  }

  /** Which states can be planned, and how. In flake mode a missing or empty target is the suggested one. */
  lemma PlansExactly(c: Context, files: Files, s: State, target: Option<string>)
    ensures PlanState(c, files, s, target).Some? <==> (c.mode == Channels || c.mode == Flake) && Generate(s).Some?
    ensures PlanState(c, files, s, target).Some? ==>
      var p := PlanState(c, files, s, target).value;
      && p.mode == c.mode && p.state == s
      && p.target ==
           (if c.mode == Flake && (target.None? || target.value == "") then Some(c.suggested) else target)
      && AreChanges(p.changes, files, Serialize(c, s), Generate(s).value)
  {
    if Generate(s).Some? {
      ChangesExactly(files, Serialize(c, s), Generate(s).value);
    }
    hide Changes, Serialize, Generate, AreChanges;
  }

  /** Which request a client makes, and that it makes none exactly when both files hold their texts. */
  lemma RequestsExactly(c: Context, files: Files, s: State, target: Option<string>)
    requires PlanState(c, files, s, target).Some?
    ensures BuildRequest(c, files, s, target).None? <==>
      TextAt(files, StateFile) == Serialize(c, s) && TextAt(files, ModuleFile) == Generate(s).value
    ensures BuildRequest(c, files, s, target).Some? ==>
      var q := BuildRequest(c, files, s, target).value;
      && q.candidates.Keys <= {StateFile, ModuleFile}
      && Submits(q.candidates, files, StateFile, Serialize(c, s))
      && Submits(q.candidates, files, ModuleFile, Generate(s).value)
      && q.fingerprint == IdentityOf(PlanState(c, files, s, target).value)
  {
    SubmitsBoth(files, Serialize(c, s), Generate(s).value);
  }

  /** The helper accepts exactly the requests that a client makes of the same files, for the same target, and a
      state that can be stored. */
  lemma AcceptsExactly(c: Context, files: Files, q: Request, target: Option<string>)
    requires JsonInverse(c)
    ensures Match(c, files, q, target).Some? <==>
      exists s :: FixedPoint(c, s) && BuildRequest(c, files, s, target) == Some(q)
  {
    if Match(c, files, q, target).Some? {
      var s := Match(c, files, q, target).value.state;
      ReadingTwice(c.catalog, c.consistent, c.load(StateText(files, q.candidates).value).value);
      assert FixedPoint(c, s) && BuildRequest(c, files, s, target) == Some(q);
    }
    if s :| FixedPoint(c, s) && BuildRequest(c, files, s, target) == Some(q) {
      HelperRebuildsThePlan(c, files, s, target);
    }
  }

  /** The files with the changes in place. */
  function Install(files: Files, changes: seq<FileChange>): Files {
    if changes == [] then files
    else Install(files, changes[..|changes| - 1])[changes[|changes| - 1].path := changes[|changes| - 1].candidate]
  }

  lemma InstalledOne(files: Files, path: Path, candidate: string)
    requires candidate != ""
    ensures Install(files, ChangeOf(files, path, candidate)) == files[path := candidate]
  {
    var change := ChangeOf(files, path, candidate);
    if change != [] {
      assert change[..0] == [];
    } else {
      assert files[path := candidate] == files;
    }
  }

  lemma {:induction false} InstallSplits(files: Files, a: seq<FileChange>, b: seq<FileChange>)
    ensures Install(files, a + b) == Install(Install(files, a), b)
  {
    if b == [] {
      assert a + b == a;
    } else {
      InstallSplits(files, a, b[..|b| - 1]);
      assert (a + b)[..|a + b| - 1] == a + b[..|b| - 1];
    }
  }

  lemma GeneratedNotEmpty(s: State)
    requires Generate(s).Some?
    ensures Generate(s).value != ""
  {
    var body := M.BodyLines(ModuleState(s)).value;
    var lines := M.HEADING + body + ["}", ""];
    assert lines[0] == M.HEADER && |lines| > 1;
  }

  /** Once the planned changes are installed, both files are the canonical texts of the state, the stored
      state reads back, and planning again changes nothing. */
  lemma InstalledPlanIsFixed(c: Context, files: Files, s: State, target: Option<string>)
    requires JsonInverse(c) && FixedPoint(c, s) && PlanState(c, files, s, target).Some?
    ensures var after := Install(files, PlanState(c, files, s, target).value.changes);
      && after == files[StateFile := Serialize(c, s)][ModuleFile := Generate(s).value]
      && Read(c, after[StateFile]) == Some(s)
      && PlanState(c, after, s, target) == Some(PlanState(c, files, s, target).value.(changes := []))
  {
    var text, mod := Serialize(c, s), Generate(s).value;
    SerializedReadsBack(c, s);
    GeneratedNotEmpty(s);
    var state := ChangeOf(files, StateFile, text);
    var second := ChangeOf(files, ModuleFile, mod);
    InstallSplits(files, state, second);
    InstalledOne(files, StateFile, text);
    var between := files[StateFile := text];
    assert ChangeOf(between, ModuleFile, mod) == second;
    InstalledOne(between, ModuleFile, mod);
    NothingLeft(between[ModuleFile := mod], text, mod);
  }

  lemma NothingLeft(files: Files, state: string, mod: string)
    requires StateFile in files && files[StateFile] == state && ModuleFile in files && files[ModuleFile] == mod
    ensures Changes(files, state, mod) == []
  {
  }

  /** Whatever request the helper accepts, installing its plan leaves the state file and the module the
      canonical texts of one state, which reads back from the state file. */
  lemma AcceptedPlanIsCanonical(c: Context, files: Files, q: Request, target: Option<string>)
    requires JsonInverse(c) && Match(c, files, q, target).Some?
    ensures var p := Match(c, files, q, target).value;
      var after := Install(files, p.changes);
      && q == Request(IdentityOf(p), Candidates(p.changes))
      && StateFile in after && Read(c, after[StateFile]) == Some(p.state)
      && ModuleFile in after && Generate(p.state) == Some(after[ModuleFile])
  {
    var p := Match(c, files, q, target).value;
    var text := StateText(files, q.candidates).value;
    ReadingTwice(c.catalog, c.consistent, c.load(text).value);
    InstalledPlanIsFixed(c, files, p.state, target);
  }

  lemma OrderedPaths(options: Object, paths: seq<string>)
    requires forall p <- paths :: p in options && M.AttributePath(p)
    ensures forall o <- Ordered(options, paths) :: M.AttributePath(o.0)
  {
  }

  /** The installed module reads back, by the Nix grammar, as the packages and options of the state, exactly
      when none of its names is reserved, every value is readable and no two bindings are in each other's way. */
  lemma InstalledModuleMeansTheState(c: Context, s: State)
    requires FixedPoint(c, s) && Generate(s).Some?
    ensures M.ReadModule(Generate(s).value) ==
      R.Outcome(M.ReadableState(ModuleState(s)), M.Bindings(ModuleState(s)), "\n")
  {
    ReadStateIsValid(c, ToMapping(s));
    OrderedPaths(s.options, SortedKeys(s.options.Keys));
    M.ModuleBack(ModuleState(s));
  }

  lemma ReadStateIsValid(c: Context, raw: Object)
    requires FromMapping(c.catalog, c.consistent, raw).Some?
    ensures var s := FromMapping(c.catalog, c.consistent, raw).value;
      && (forall p <- s.packages :: M.AttributePath(p)) && (forall p <- s.options :: M.AttributePath(p))
  {
  }
}
