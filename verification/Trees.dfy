/** Build trees, wharf patches and the replay of a build's patch chain.
    A patch names the tree it applies to and the tree it produces by their
    containers (file names and sizes), and gives a script per produced file. */
module Trees {
  import opened Records

  type Bytes = seq<bv8>
  type Tree = map<string, Bytes>
  type Container = map<string, nat>

  const EMPTY_TREE: Tree := map[]
  const EMPTY_CONTAINER: Container := map[]

  datatype Op = Copy(file: string, offset: nat, length: nat) | Literal(data: Bytes)

  datatype Patch = Patch(target: Container, source: Container, script: map<string, seq<Op>>)

  datatype Files = Files(patch: ClientFile<Patch>, signature: ClientFile<Container>)

  function Piece(op: Op, target: Container, tree: Tree): Option<Bytes>
  {
    match op
    case Literal(data) => Some(data)
    case Copy(file, offset, length) =>
      if file in target && file in tree && offset + length <= |tree[file]|
      then Some(tree[file][offset..offset + length])
      else None
  }

  function RunOps(ops: seq<Op>, target: Container, tree: Tree): Option<Bytes>
  {
    if ops == [] then Some([])
    else
      match (Piece(ops[0], target, tree), RunOps(ops[1..], target, tree))
      case (Some(first), Some(rest)) => Some(first + rest)
      case _ => None
  }

  /** A fresh output folder holding exactly the files of the patch's source
      container, or None when a script is missing or reads outside the tree. */
  function Apply(patch: Patch, tree: Tree): Option<Tree>
  {
    if forall file | file in patch.source ::
         file in patch.script && RunOps(patch.script[file], patch.target, tree).Some?
    then Some(map file | file in patch.source :: RunOps(patch.script[file], patch.target, tree).value)
    else None
  }

  /** validatePatchTargetContainer: no expectation means the empty container. */
  predicate TargetMatches(target: Container, expected: Option<Container>)
  {
    match expected
    case None => target == EMPTY_CONTAINER
    case Some(container) => target == container
  }

  /** applyPatchStep once its four inputs are downloaded. */
  function ApplyStep(patch: Patch, signature: Container, tree: Tree, expected: Option<Container>): Option<Tree>
  {
    if TargetMatches(patch.target, expected) && patch.source == signature
    then Apply(patch, tree)
    else None
  }

  /** The simple form of a build's content: every patch of its ancestry applied
      in order, starting from the empty tree. */
  function Fold(builds: map<BuildId, Build>, files: map<BuildId, Files>, b: BuildId): Option<Tree>
    decreases b, 1
  {
    if b in builds && b in files && files[b].patch.Ready? then
      match Before(builds, files, b)
      case None => None
      case Some(tree) => Apply(files[b].patch.content, tree)
    else None
  }

  /** The tree that build b's own patch applies to. */
  function Before(builds: map<BuildId, Build>, files: map<BuildId, Files>, b: BuildId): Option<Tree>
    requires b in builds
    decreases b, 0
  {
    match builds[b].parent
    case None => Some(EMPTY_TREE)
    case Some(parent) => if parent < b then Fold(builds, files, parent) else None
  }

  /** The container the patch of build b is checked against. */
  function Expected(builds: map<BuildId, Build>, files: map<BuildId, Files>, b: BuildId): Option<Container>
    requires b in builds
  {
    match builds[b].parent
    case None => None
    case Some(parent) =>
      if parent in files && files[parent].signature.Ready?
      then Some(files[parent].signature.content)
      else None
  }

  predicate FilesReady(files: map<BuildId, Files>, b: BuildId)
  {
    b in files && files[b].patch.Ready? && files[b].signature.Ready?
  }

  /** What generateArchiveDefault has checked before an archive row exists: both
      files are there, the containers match up and the whole fold succeeds. */
  predicate LinkChecked(builds: map<BuildId, Build>, files: map<BuildId, Files>, b: BuildId)
  {
    && b in builds
    && b in files && files[b].patch.Ready? && files[b].signature.Ready?
    && (match builds[b].parent
        case None => files[b].patch.content.target == map[]
        case Some(parent) =>
          && parent in files && files[parent].signature.Ready?
          && files[b].patch.content.target == files[parent].signature.content)
    && files[b].patch.content.source == files[b].signature.content
    && Fold(builds, files, b).Some?
  }

  /** Rows are only added and finalized files never change. */
  ghost predicate Grows(builds: map<BuildId, Build>, files: map<BuildId, Files>,
                        builds': map<BuildId, Build>, files': map<BuildId, Files>)
  {
    && (forall b | b in builds :: b in builds' && builds'[b] == builds[b])
    && (forall b | b in files :: b in files')
    && (forall b | b in files && IsFinal(files[b].patch) :: files'[b].patch == files[b].patch)
    && (forall b | b in files && IsFinal(files[b].signature) :: files'[b].signature == files[b].signature)
  }

  predicate IsFinal<T>(file: ClientFile<T>) {
    file.Ready? || file.Broken?
  }

  lemma {:induction false} FoldSurvivesGrowth(builds: map<BuildId, Build>, files: map<BuildId, Files>,
                                              builds': map<BuildId, Build>, files': map<BuildId, Files>, b: BuildId)
    requires Grows(builds, files, builds', files')
    requires Fold(builds, files, b).Some?
    ensures Fold(builds', files', b) == Fold(builds, files, b)
    decreases b
  {
    if builds[b].parent.Some? {
      FoldSurvivesGrowth(builds, files, builds', files', builds[b].parent.value);
    }
  }

  lemma LinkSurvivesGrowth(builds: map<BuildId, Build>, files: map<BuildId, Files>,
                           builds': map<BuildId, Build>, files': map<BuildId, Files>, b: BuildId)
    requires Grows(builds, files, builds', files')
    requires LinkChecked(builds, files, b)
    ensures LinkChecked(builds', files', b)
  {
    FoldSurvivesGrowth(builds, files, builds', files', b);
  }

  lemma BeforeSurvivesGrowth(builds: map<BuildId, Build>, files: map<BuildId, Files>,
                             builds': map<BuildId, Build>, files': map<BuildId, Files>, b: BuildId)
    requires Grows(builds, files, builds', files')
    requires b in builds && Before(builds, files, b).Some?
    ensures Before(builds', files', b) == Before(builds, files, b)
  {
    if builds[b].parent.Some? {
      FoldSurvivesGrowth(builds, files, builds', files', builds[b].parent.value);
    }
  }
}
