/** Lock files, and what the strict inspection reads out of them. */
module FlakeLockModel {
  import opened Basics
  import opened JournalModel
  import opened NixGenerator

  /** Where an input of a node comes from: another node, or a path to follow from the root. */
  datatype Reference = ToNode(node: string) | Follows(path: seq<string>) | Malformed

  /** What an input's record shows of a node's locked source. */
  datatype Source = Source(locked: bool, kind: string, details: string)

  /** A node: its inputs if it lists any, its source, and everything else about it. */
  datatype Node = Node(inputs: Option<map<string, Reference>>, source: Source, rest: string)

  datatype Lock = Lock(nodes: map<string, Node>, root: string)

  /** The record of a direct input. */
  datatype Input = Direct(node: string, source: Source) | Following(path: seq<string>)

  /** Reading JSON: the node table of a lock file, if the text is one. */
  type Parser = string -> Option<Lock>

  const MAX_LOCK_BYTES: nat := 4_000_000
  const MAX_LOCK_UPDATE_BYTES: nat := 1_000_000
  const MAX_NODES: nat := 512
  const MAX_NAME: nat := 128

  const UNSUPPORTED: set<string> := {"follows", "indirect", "path", "unknown"}

  predicate RootKnown(l: Lock) {
    l.root in l.nodes
  }

  function RootInputs(l: Lock): map<string, Reference>
    requires RootKnown(l)
  {
    var inputs := l.nodes[l.root].inputs;
    if inputs.Some? then inputs.value else map[]
  }

  /** The reference can be resolved to a record without a warning. */
  predicate Resolves(l: Lock, name: string, r: Reference) {
    && name != "" && |name| <= MAX_NAME
    && match r
       case ToNode(node) => node in l.nodes && l.nodes[node].source.locked
       case Follows(path) => path != []
       case Malformed => false
  }

  /** The strict inspection finds the lock valid and has no warning. */
  predicate Strict(l: Lock) {
    RootKnown(l) && |l.nodes| <= MAX_NODES && forall name <- RootInputs(l) :: Resolves(l, name, RootInputs(l)[name])
  }

  function RecordOf(l: Lock, r: Reference): Input
    requires r.ToNode? ==> r.node in l.nodes
    requires !r.Malformed?
  {
    match r
    case ToNode(node) => Direct(node, l.nodes[node].source)
    case Follows(path) => Following(path)
  }

  /** The record of a direct input by its name. */
  function InputNamed(l: Lock, name: string): Option<Input>
    requires Strict(l)
  {
    if name in RootInputs(l) then
      assert Resolves(l, name, RootInputs(l)[name]);
      Some(RecordOf(l, RootInputs(l)[name]))
    else None
  }

  /** The input is one whose update can be previewed and applied. */
  predicate Updatable(input: Option<Input>) {
    input.Some? && input.value.Direct? && input.value.source.kind !in UNSUPPORTED
  }

  /** The direct inputs of the first lock whose record is not the same in the second. */
  function ChangedDirect(before: Lock, after: Lock): set<string>
    requires Strict(before) && Strict(after)
  {
    set name | name in RootInputs(before) && InputNamed(before, name) != InputNamed(after, name)
  }

  /** The names under which the two node tables differ. */
  function ChangedNodes(before: Lock, after: Lock): set<string> {
    set name | name in before.nodes.Keys + after.nodes.Keys && NodeAt(before, name) != NodeAt(after, name)
  }

  function NodeAt(l: Lock, name: string): Option<Node> {
    if name in l.nodes then Some(l.nodes[name]) else None
  }

  function RootTable(l: Lock): Option<map<string, Reference>>
    requires RootKnown(l)
  {
    l.nodes[l.root].inputs
  }

  /** The configuration source: its lock file, and everything beside it. */
  datatype Tree = Tree(others: string, lock: string)

  /** The two source identities are digests of the file list, with and without the lock. */
  datatype Fingerprint = Fingerprint(root: string, input: string, source: Tree, previous: Digest, candidate: Digest,
    changed: seq<string>)

  function PlanFingerprint(root: string, input: string, source: Tree, before: string, after: string,
      changed: set<string>): Fingerprint
  {
    Fingerprint(root, input, source, Sha256(before), Sha256(after), SortedKeys(changed))
  }
}
