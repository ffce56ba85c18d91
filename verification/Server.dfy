/** The server as one state machine over its database rows, object store and
    advisory locks. Every step is one database or storage call of one process;
    any interleaving of processes is a run, and a process may crash after any
    call. The processes are ensureArchive (with the rebuild), evictArchive,
    sweepEvictedObjects for one row, and checkAndUpdateBuildState with the
    archive generation. */
module Server {
  import opened Records
  import opened Trees

  const MAX_CHAIN_LENGTH := 10000

  type Pid = nat

  /** Storage key of an archive object; the format is its file extension. */
  datatype Key = Key(build: BuildId, uuid: nat, format: Format)

  datatype Archive = Archive(format: Format, tree: Tree)

  datatype ArchiveState = Uploaded | Rebuilding | Evicted

  /** The archive/default row; path None stands for the empty storage path. */
  datatype ArchiveRow = ArchiveRow(state: ArchiveState, path: Option<Key>, evictedAt: bool)

  /** Why a chain is replayed: a rebuild works on its own copy of the archive
      row, a generation runs at one depth of checkAndUpdateBuildState. */
  datatype Job = Rebuild(file: ArchiveRow, wasEvicted: bool) | Generate(depth: nat)

  datatype BasePhase = BaseRow | BaseGet(key: Key) | BaseSignatureRow(tree: Tree) | BaseSignatureGet(tree: Tree)

  datatype LinkPhase = PatchRow | SignatureRow | PatchGet | SignatureGet(patch: Patch)

  // The call a process makes next, with its local variables.

  /** ensureArchive and rebuildArchive around the replay; the two calls of
      warmArchive are made without and then with the lock. */
  datatype EnsurePc =
    | WarmRow(locked: bool)
    | WarmHead(locked: bool, key: Key)
    | LockWait
    | RebuildBuild
    | RebuildRow
    | MarkRebuilding(found: Option<ArchiveRow>)
    | Revert(file: ArchiveRow)

  /** collectRebuildChain, materializeArchivedTree, readParentSignature,
      applyPatchStep, compressAndUploadArchive and the row write after it. */
  datatype ReplayPc =
    | Walk(chain: seq<BuildId>, current: BuildId)
    | WalkRow(chain: seq<BuildId>, parent: BuildId)
    | WalkHead(chain: seq<BuildId>, parent: BuildId, key: Key)
    | LinkRows(chain: seq<BuildId>, warmBase: Option<BuildId>, index: nat, signature: bool)
    | Base(chain: seq<BuildId>, base: BuildId, basePhase: BasePhase)
    | Link(chain: seq<BuildId>, index: nat, tree: Tree, expected: Option<Container>, phase: LinkPhase)
    | Put(tree: Tree)
    | Save(key: Key)

  /** checkAndUpdateBuildState; on top of a parent its generation first makes a
      nested request for the parent's archive, which the process helper serves. */
  datatype CheckPc =
    | CheckBuild(depth: nat)
    | CheckFiles(depth: nat, seen: BuildState)
    | Claim(depth: nat)
    | AskParent(depth: nat)
    | AwaitParent(depth: nat, helper: Pid)
    | FailBroken
    | FailGeneration
    | Complete
    | Crown

  /** evictArchive and one round of sweepEvictedObjects. */
  datatype EvictPc =
    | EvictLock
    | EvictRead
    | Guard(row: ArchiveRow, check: GuardCheck)
    | EvictMark(row: ArchiveRow)
    | SweepLock
    | SweepRead
    | DeleteObject(row: ArchiveRow)
    | ClearPath(row: ArchiveRow)

  datatype GuardCheck = NotHead | BuildCompleted | PatchRowThere | PatchThere | SignatureRowThere | SignatureThere

  datatype Pc =
    | Ensuring(ensurePc: EnsurePc)
    | Replaying(job: Job, replayPc: ReplayPc)
    | Checking(checkPc: CheckPc)
    | Evicting(evictPc: EvictPc)
    | Unlock(result: Option<Key>)
    | Returned(result: Option<Key>)

  datatype Proc = Proc(build: BuildId, at: Pc)

  /** What has happened so far; no step reads it. */
  datatype Log = Log(
    claimant: map<BuildId, Pid>,
    completed: set<BuildId>,
    claims: multiset<BuildId>,
    inserts: multiset<BuildId>,
    marks: multiset<BuildId>,
    rebuilds: multiset<BuildId>,
    crowned: multiset<BuildId>)

  datatype PendingBuild = PendingBuild(channel: Channel, parent: Option<BuildId>)

  datatype State = State(
    builds: map<BuildId, Build>,
    status: map<BuildId, BuildState>,
    files: map<BuildId, Files>,
    lost: set<BuildId>,
    heads: map<Channel, Option<BuildId>>,
    arch: map<BuildId, ArchiveRow>,
    objects: map<Key, Archive>,
    uuids: nat,
    locks: map<BuildId, Pid>,
    procs: map<Pid, Proc>,
    pending: map<Pid, PendingBuild>,
    log: Log)

  ghost function Init(): State {
    State(map[], map[], map[], {}, map[], map[], map[], 0, map[], map[], map[],
          Log(map[], {}, multiset{}, multiset{}, multiset{}, multiset{}, multiset{}))
  }

  ghost predicate IsHead(s: State, b: BuildId) {
    exists channel :: channel in s.heads && s.heads[channel] == Some(b)
  }

  predicate UploadedRow(s: State, b: BuildId) {
    b in s.arch && s.arch[b].state == Uploaded && s.arch[b].path.Some?
  }

  /** The build's archive row is uploaded and its object is there. */
  predicate Warm(s: State, b: BuildId) {
    UploadedRow(s, b) && s.arch[b].path.value in s.objects
  }

  predicate PatchStored(s: State, b: BuildId) {
    b in s.files && s.files[b].patch.Ready? && b !in s.lost
  }

  /** UPDATE build_files ... WHERE id: no effect when the row does not exist. */
  function Updated(arch: map<BuildId, ArchiveRow>, b: BuildId, row: ArchiveRow): map<BuildId, ArchiveRow> {
    if b in arch then arch[b := row] else arch
  }

  /** INSERT INTO build_files: a second row would stay behind the first one. */
  function Inserted(arch: map<BuildId, ArchiveRow>, b: BuildId, row: ArchiveRow): map<BuildId, ArchiveRow> {
    if b in arch then arch else arch[b := row]
  }

  function UpdateRow(s: State, b: BuildId, row: ArchiveRow): State {
    s.(arch := Updated(s.arch, b, row))
  }

  function InsertRow(s: State, b: BuildId, row: ArchiveRow): State {
    s.(arch := Inserted(s.arch, b, row), log := s.log.(inserts := s.log.inserts + multiset{b}))
  }

  /** Where a failed replay goes: rebuildArchive's revert or the failed build. */
  function Abort(job: Job): Pc {
    match job
    case Rebuild(file, wasEvicted) => if wasEvicted then Ensuring(Revert(file.(state := Evicted))) else Unlock(None)
    case Generate(_) => Checking(FailGeneration)
  }

  function StartReplay(chain: seq<BuildId>, base: Option<BuildId>): ReplayPc {
    match base
    case None => Link(chain, 0, EMPTY_TREE, None, PatchRow)
    case Some(parent) => Base(chain, parent, BaseRow)
  }

  /** rebuildArchive's copy of the row it found, or the row it creates. */
  function RebuildingCopy(found: Option<ArchiveRow>): ArchiveRow {
    match found
    case Some(row) => ArchiveRow(Rebuilding, row.path, row.evictedAt)
    case None => ArchiveRow(Rebuilding, None, false)
  }

  /** Updates the row that was found, or inserts one when there was none. */
  function WriteRebuilding(s: State, b: BuildId, found: Option<ArchiveRow>): State {
    var row := RebuildingCopy(found);
    s.(arch := if found.Some? then Updated(s.arch, b, row) else Inserted(s.arch, b, row),
       log := s.log.(inserts := s.log.inserts + if found.Some? then multiset{} else multiset{b}))
  }

  // Each call is given by what it writes and by where its process goes next.

  function WriteEnsure(s: State, p: Pid, b: BuildId, pc: EnsurePc, ok: bool): State {
    if !ok then s else
    match pc
    case LockWait => if b in s.locks then s else s.(locks := s.locks[b := p])
    case MarkRebuilding(found) => WriteRebuilding(s, b, found)
    case Revert(file) => UpdateRow(s, b, file)
    case _ => s
  }

  function AfterEnsure(s: State, b: BuildId, pc: EnsurePc, ok: bool): Pc {
    match pc
    case WarmRow(locked) =>
      if ok && UploadedRow(s, b) then Ensuring(WarmHead(locked, s.arch[b].path.value))
      else Ensuring(if locked then RebuildBuild else LockWait)
    case WarmHead(locked, key) =>
      if ok && key in s.objects then if locked then Unlock(Some(key)) else Returned(Some(key))
      else Ensuring(if locked then RebuildBuild else LockWait)
    case LockWait => if !ok then Returned(None) else Ensuring(if b in s.locks then LockWait else WarmRow(true))
    case RebuildBuild => if ok && b in s.status && s.status[b] == Completed then Ensuring(RebuildRow) else Unlock(None)
    case RebuildRow =>
      if ok then Ensuring(MarkRebuilding(if b in s.arch then Some(s.arch[b]) else None)) else Unlock(None)
    case MarkRebuilding(found) =>
      if ok then Replaying(Rebuild(RebuildingCopy(found), found.Some? && found.value.evictedAt), Walk([b], b))
      else Unlock(None)
    case Revert(file) => Unlock(None)
  }

  /** The next call of a replay after one that only reads; None when it fails. */
  function ReadStep(s: State, pc: ReplayPc, ok: bool): Option<ReplayPc>
  {
    match pc
    case Walk(chain, current) =>
      if current !in s.builds then None else
      (match s.builds[current].parent
       case None => Some(LinkRows(chain, None, 0, false))
       case Some(parent) =>
         if |chain| > MAX_CHAIN_LENGTH || !ok || parent !in s.builds then None else Some(WalkRow(chain, parent)))
    case WalkRow(chain, parent) =>
      Some(if ok && UploadedRow(s, parent) then WalkHead(chain, parent, s.arch[parent].path.value)
           else Walk([parent] + chain, parent))
    case WalkHead(chain, parent, key) =>
      Some(if ok && key in s.objects then LinkRows(chain, Some(parent), 0, false) else Walk([parent] + chain, parent))
    case LinkRows(chain, warmBase, index, signature) =>
      if !ok || index >= |chain| || chain[index] !in s.files then None
      else if !signature then
        if s.files[chain[index]].patch.Ready? then Some(LinkRows(chain, warmBase, index, true)) else None
      else if !s.files[chain[index]].signature.Ready? then None
      else Some(if index + 1 < |chain| then LinkRows(chain, warmBase, index + 1, false) else StartReplay(chain,
                                                                                                         warmBase))
    case Base(chain, base, phase) => BaseStep(s, chain, base, phase, ok)
    case Link(chain, index, tree, expected, phase) =>
      if ok && index < |chain| && chain[index] in s.files then LinkStep(s, chain, index, tree, expected,
                                                                        phase) else None
    case Put(_) => None
    case Save(_) => None
  }

  function BaseStep(s: State, chain: seq<BuildId>, base: BuildId, phase: BasePhase, ok: bool): Option<ReplayPc>
  {
    var signed := base in s.files && s.files[base].signature.Ready?;
    match phase
    case BaseRow => if ok && UploadedRow(s, base) then Some(Base(chain, base,
                                                                 BaseGet(s.arch[base].path.value))) else None
    case BaseGet(key) =>
      // the archive is extracted by the format of its path
      if ok && key in s.objects && s.objects[key].format == key.format
      then Some(Base(chain, base, BaseSignatureRow(s.objects[key].tree))) else None
    case BaseSignatureRow(tree) => if ok && signed then Some(Base(chain, base, BaseSignatureGet(tree))) else None
    case BaseSignatureGet(tree) =>
      if ok && signed then Some(Link(chain, 0, tree, Some(s.files[base].signature.content), PatchRow)) else None
  }

  function LinkStep(s: State, chain: seq<BuildId>, index: nat, tree: Tree, expected: Option<Container>,
                    phase: LinkPhase)
    : Option<ReplayPc>
    requires index < |chain| && chain[index] in s.files
  {
    var files := s.files[chain[index]];
    match phase
    case PatchRow => if files.patch.Ready? then Some(Link(chain, index, tree, expected, SignatureRow)) else None
    case SignatureRow => if files.signature.Ready? then Some(Link(chain, index, tree, expected, PatchGet)) else None
    case PatchGet =>
      if PatchStored(s, chain[index]) then Some(Link(chain, index, tree, expected, SignatureGet(files.patch.content)))
      else None
    case SignatureGet(patch) =>
      if !files.signature.Ready? then None else
      (match ApplyStep(patch, files.signature.content, tree, expected)
       case None => None
       case Some(output) =>
         Some(if index + 1 < |chain| then Link(chain, index + 1, output, Some(files.signature.content), PatchRow)
              else Put(output)))
  }

  function WriteReplay(s: State, b: BuildId, job: Job, pc: ReplayPc, ok: bool, pick: Format): State {
    if !ok then s else
    match pc
    case Put(tree) => s.(objects := s.objects[Key(b, s.uuids, pick) := Archive(pick, tree)], uuids := s.uuids + 1)
    case Save(key) => WriteSave(s, b, job, ArchiveRow(Uploaded, Some(key), false))
    case _ => s
  }

  function WriteSave(s: State, b: BuildId, job: Job, row: ArchiveRow): State {
    match job
    case Rebuild(_, _) => UpdateRow(s, b, row).(log := s.log.(rebuilds := s.log.rebuilds + multiset{b}))
    case Generate(_) => InsertRow(s, b, row)
  }

  function AfterReplay(s: State, b: BuildId, job: Job, pc: ReplayPc, ok: bool, pick: Format): Pc {
    match pc
    case Put(tree) => if ok then Replaying(job, Save(Key(b, s.uuids, pick))) else Abort(job)
    case Save(key) => AfterSave(job, key, ok)
    case _ => (match ReadStep(s, pc, ok) case Some(next) => Replaying(job, next) case None => Abort(job))
  }

  /** A failed row write is reverted from the copy that was about to be saved. */
  function AfterSave(job: Job, key: Key, ok: bool): Pc {
    match job
    case Rebuild(_, wasEvicted) =>
      if ok then Unlock(Some(key))
      else if wasEvicted then Ensuring(Revert(ArchiveRow(Evicted, Some(key), false))) else Unlock(None)
    case Generate(depth) => Checking(if ok then CheckBuild(depth + 1) else FailGeneration)
  }

  predicate Positive<T>(file: ClientFile<T>) {
    file.Ready? && file.size > 0
  }

  predicate KnownBuild(s: State, b: BuildId) {
    b in s.status && b in s.files && b in s.builds
  }

  function WriteCheck(s: State, p: Pid, b: BuildId, pc: CheckPc, ok: bool): State {
    if !ok || !KnownBuild(s, b) then s else
    match pc
    case Claim(_) =>
      if s.status[b] != Started then s else
      s.(status := s.status[b := Processing],
         log := s.log.(claims := s.log.claims + multiset{b}, claimant := s.log.claimant[b := p]))
    case FailBroken => s.(status := s.status[b := Failed])
    case FailGeneration => s.(status := s.status[b := Failed])
    case Complete => s.(status := s.status[b := Completed], log := s.log.(completed := s.log.completed + {b}))
    case Crown =>
      if s.builds[b].channel !in s.heads then s else
      s.(heads := s.heads[s.builds[b].channel := Some(b)], log := s.log.(crowned := s.log.crowned + multiset{b}))
    case _ => s
  }

  function AfterCheck(s: State, b: BuildId, pc: CheckPc, ok: bool): Option<Pc> {
    match pc
    case AskParent(_) => Some(Checking(if ok then pc else FailGeneration))
    case AwaitParent(depth, helper) => Some(AfterAwait(s, b, depth, helper))
    case _ => if ok && KnownBuild(s, b) then AfterCall(s, b, pc) else None
  }

  function AfterCall(s: State, b: BuildId, pc: CheckPc): Option<Pc>
    requires KnownBuild(s, b)
  {
    match pc
    case CheckBuild(depth) =>
      if s.status[b] == Started || s.status[b] == Processing then Some(Checking(CheckFiles(depth,
                                                                                           s.status[b]))) else None
    case CheckFiles(depth, seen) => AfterCheckFiles(s, b, depth, seen)
    case Claim(depth) => if s.status[b] == Started then Some(StartGeneration(b, s.builds[b].parent, depth)) else None
    case Complete => Some(Checking(Crown))
    case _ => None
  }

  /** generateArchiveDefault begins with the nested request, if there is a parent. */
  function StartGeneration(b: BuildId, parent: Option<BuildId>, depth: nat): Pc {
    match parent
    case None => Replaying(Generate(depth), StartReplay([b], None))
    case Some(_) => Checking(AskParent(depth))
  }

  /** The generation waits for its nested request, then reads the parent's archive. */
  function AfterAwait(s: State, b: BuildId, depth: nat, helper: Pid): Pc {
    if b !in s.builds || s.builds[b].parent.None? then Checking(FailGeneration) else
    var parent := s.builds[b].parent.value;
    if helper !in s.procs || s.procs[helper].build != parent then Checking(FailGeneration) else
    match s.procs[helper].at
    case Returned(Some(_)) => Replaying(Generate(depth), StartReplay([b], Some(parent)))
    case Returned(None) => Checking(FailGeneration)
    case _ => Checking(AwaitParent(depth, helper))
  }

  function AfterCheckFiles(s: State, b: BuildId, depth: nat, seen: BuildState): Option<Pc>
    requires b in s.files
  {
    var required := Positive(s.files[b].patch) && Positive(s.files[b].signature);
    var hasArchive := b in s.arch && s.arch[b].state == Uploaded;
    if s.files[b].patch.Broken? || s.files[b].signature.Broken? then Some(Checking(FailBroken))
    else if required && !hasArchive && seen == Started then Some(Checking(Claim(depth)))
    else if required && hasArchive then Some(Checking(Complete))
    else None
  }

  /** The guards of evictArchive in their order, each with the check after it. */
  ghost predicate GuardPasses(s: State, b: BuildId, check: GuardCheck) {
    match check
    case NotHead => !IsHead(s, b)
    case BuildCompleted => b in s.status && s.status[b] == Completed
    case PatchRowThere => b in s.files && s.files[b].patch.Ready?
    case PatchThere => PatchStored(s, b)
    case SignatureRowThere => b in s.files && s.files[b].signature.Ready?
    case SignatureThere => b in s.files && s.files[b].signature.Ready?
  }

  function AfterGuard(row: ArchiveRow, check: GuardCheck): EvictPc {
    match check
    case NotHead => Guard(row, BuildCompleted)
    case BuildCompleted => Guard(row, PatchRowThere)
    case PatchRowThere => Guard(row, PatchThere)
    case PatchThere => Guard(row, SignatureRowThere)
    case SignatureRowThere => Guard(row, SignatureThere)
    case SignatureThere => EvictMark(row)
  }

  function MarkedRow(row: ArchiveRow): ArchiveRow {
    ArchiveRow(Evicted, row.path, true)
  }

  function WriteEvict(s: State, p: Pid, b: BuildId, pc: EvictPc, ok: bool): State {
    if !ok then s else
    match pc
    case EvictLock => if b in s.locks then s else s.(locks := s.locks[b := p])
    case SweepLock => if b in s.locks then s else s.(locks := s.locks[b := p])
    case EvictMark(row) => UpdateRow(s, b, MarkedRow(row)).(log := s.log.(marks := s.log.marks + multiset{b}))
    case DeleteObject(row) => if row.path.Some? then s.(objects := s.objects - {row.path.value}) else s
    case ClearPath(row) => UpdateRow(s, b, row)
    case _ => s
  }

  ghost function AfterEvict(s: State, b: BuildId, pc: EvictPc, ok: bool): Option<Pc> {
    match pc
    case EvictLock => if !ok || b in s.locks then None else Some(Evicting(EvictRead))
    case SweepLock => if !ok || b in s.locks then None else Some(Evicting(SweepRead))
    case EvictRead => Some(if ok && UploadedRow(s, b) then Evicting(Guard(s.arch[b], NotHead)) else Unlock(None))
    case Guard(row, check) =>
      Some(if ok && GuardPasses(s, b, check) then Evicting(AfterGuard(row, check)) else Unlock(None))
    case EvictMark(row) => Some(if ok then Evicting(DeleteObject(MarkedRow(row))) else Unlock(None))
    case SweepRead =>
      Some(if ok && b in s.arch && s.arch[b].state == Evicted && s.arch[b].path.Some?
           then Evicting(DeleteObject(s.arch[b])) else Unlock(None))
    case DeleteObject(row) =>
      Some(if ok && row.path.Some? then Evicting(ClearPath(ArchiveRow(row.state, None,
                                                                      row.evictedAt))) else Unlock(None))
    case ClearPath(_) => Some(Unlock(None))
  }

  /** What one call of process p writes. A failed call (ok false) writes nothing;
      pick is the packing format when the call uploads an archive. */
  function Write(s: State, p: Pid, ok: bool, pick: Format): State
    requires p in s.procs
  {
    var b := s.procs[p].build;
    match s.procs[p].at
    case Ensuring(pc) => WriteEnsure(s, p, b, pc, ok)
    case Replaying(job, pc) => WriteReplay(s, b, job, pc, ok, pick)
    case Checking(pc) => WriteCheck(s, p, b, pc, ok)
    case Evicting(pc) => WriteEvict(s, p, b, pc, ok)
    case Unlock(_) => s.(locks := s.locks - {b})
    case Returned(_) => s
  }

  /** Where process p goes after the call; None when it is finished. */
  ghost function After(s: State, p: Pid, ok: bool, pick: Format): Option<Pc>
    requires p in s.procs
  {
    var b := s.procs[p].build;
    match s.procs[p].at
    case Ensuring(pc) => Some(AfterEnsure(s, b, pc, ok))
    case Replaying(job, pc) => Some(AfterReplay(s, b, job, pc, ok, pick))
    case Checking(pc) => AfterCheck(s, b, pc, ok)
    case Evicting(pc) => AfterEvict(s, b, pc, ok)
    case Unlock(result) => Some(Returned(result))
    case Returned(result) => Some(Returned(result))
  }

  function Moved(procs: map<Pid, Proc>, p: Pid, b: BuildId, at: Option<Pc>): map<Pid, Proc> {
    match at
    case None => procs - {p}
    case Some(pc) => procs[p := Proc(b, pc)]
  }

  function Move(s: State, p: Pid, b: BuildId, at: Option<Pc>): State {
    s.(procs := Moved(s.procs, p, b, at))
  }

  /** One call of process p. */
  ghost function Act(s: State, p: Pid, ok: bool, pick: Format): State
    requires p in s.procs
  {
    Move(Write(s, p, ok, pick), p, s.procs[p].build, After(s, p, ok, pick))
  }

  datatype Event =
    | Step(pid: Pid, ok: bool, pick: Format)
    | Crash(pid: Pid)
    // a request for the archive of a build
    | Ensure(pid: Pid, build: BuildId)
    // the nested request of the generation made by pid
    | Nest(pid: Pid, helper: Pid)
    // a GC pass lists this build's archive row for eviction or for the sweep
    | ListForEviction(pid: Pid, build: BuildId)
    | ListForSweep(pid: Pid, build: BuildId)
    // CreateBuild: read the channel head, insert the row, insert the channel row
    | ReadHead(pid: Pid, channel: Channel)
    | InsertBuild(pid: Pid, build: BuildId)
    | OpenChannel(channel: Channel)
    // CreateBuildFile, then FinalizeBuildFile spawning the check
    | OpenPatch(build: BuildId)
    | OpenSignature(build: BuildId)
    | FinalizePatch(pid: Pid, build: BuildId, patch: Patch, size: nat)
    | FinalizeSignature(pid: Pid, build: BuildId, signature: Container, size: nat)
    | FinalizeBrokenPatch(pid: Pid, build: BuildId)
    | FinalizeBrokenSignature(pid: Pid, build: BuildId)
    // the store loses the patch object of a build whose archive is warm
    | LosePatch(build: BuildId)

  predicate NoLock(s: State, p: Pid) {
    forall b | b in s.locks :: s.locks[b] != p
  }

  predicate Idle(s: State, p: Pid) {
    p !in s.procs && p !in s.pending && NoLock(s, p)
  }

  predicate IsAt(s: State, p: Pid, b: BuildId, at: Pc) {
    p in s.procs && s.procs[p] == Proc(b, at)
  }

  /** p holds the lock of b and no other. */
  predicate HoldsOnly(s: State, p: Pid, b: BuildId) {
    p !in s.pending && b in s.locks && s.locks[b] == p && forall x | x in s.locks && x != b :: s.locks[x] != p
  }

  /** Between the guard on the patch object and the eviction mark. */
  predicate PatchGuarded(at: Pc) {
    at.Evicting? && match at.evictPc
                    case Guard(_, check) => check == SignatureRowThere || check == SignatureThere
                    case EvictMark(_) => true
                    case _ => false
  }

  /** p generates on top of a parent and has not made the nested request yet. */
  predicate AsksParent(s: State, p: Pid) {
    && p in s.procs && s.procs[p].at.Checking? && s.procs[p].at.checkPc.AskParent?
    && s.procs[p].build in s.builds && s.builds[s.procs[p].build].parent.Some?
  }

  ghost predicate Enabled(s: State, e: Event) {
    match e
    case Step(p, _, _) => p in s.procs
    case Crash(p) => p in s.procs || p in s.pending
    case Ensure(p, _) => Idle(s, p)
    case Nest(p, helper) => AsksParent(s, p) && Idle(s, helper)
    case ListForEviction(p, b) =>
      && Idle(s, p) && b in s.arch && s.arch[b].state == Uploaded
      && b in s.status && s.status[b] == Completed && !IsHead(s, b)
    case ListForSweep(p, b) => Idle(s, p) && b in s.arch && s.arch[b].state == Evicted && s.arch[b].path.Some?
    case ReadHead(p, _) => Idle(s, p)
    case InsertBuild(p, b) => p in s.pending && forall x | x in s.builds :: x < b
    case OpenChannel(channel) => channel !in s.heads
    case OpenPatch(b) => b in s.files && s.files[b].patch.Missing?
    case OpenSignature(b) => b in s.files && s.files[b].signature.Missing?
    case FinalizePatch(p, b, _, _) => Idle(s, p) && b in s.files && s.files[b].patch.Uploading?
    case FinalizeSignature(p, b, _, _) => Idle(s, p) && b in s.files && s.files[b].signature.Uploading?
    case FinalizeBrokenPatch(p, b) => Idle(s, p) && b in s.files && s.files[b].patch.Uploading?
    case FinalizeBrokenSignature(p, b) => Idle(s, p) && b in s.files && s.files[b].signature.Uploading?
    case LosePatch(b) =>
      Warm(s, b) && forall p | p in s.procs && s.procs[p].build == b :: !PatchGuarded(s.procs[p].at)
  }

  function Spawn(s: State, p: Pid, b: BuildId, at: Pc): State {
    s.(procs := s.procs[p := Proc(b, at)])
  }

  function SetFiles(s: State, b: BuildId, files: Files): State {
    s.(files := s.files[b := files])
  }

  /** Taking down a process ends its database connection and so its locks. */
  function CrashOf(s: State, p: Pid): State {
    s.(procs := s.procs - {p}, pending := s.pending - {p},
       locks := map b | b in s.locks && s.locks[b] != p :: s.locks[b])
  }

  /** The nested request begins and its generation waits for it. */
  function NestOf(s: State, p: Pid, helper: Pid): State
    requires AsksParent(s, p)
  {
    var b := s.procs[p].build;
    var waiting := Move(s, p, b, Some(Checking(AwaitParent(s.procs[p].at.checkPc.depth, helper))));
    Spawn(waiting, helper, s.builds[b].parent.value, Ensuring(WarmRow(false)))
  }

  ghost function Do(s: State, e: Event): State
    requires Enabled(s, e)
  {
    match e
    case Step(p, ok, pick) => Act(s, p, ok, pick)
    case Crash(p) => CrashOf(s, p)
    case Ensure(p, b) => Spawn(s, p, b, Ensuring(WarmRow(false)))
    case Nest(p, helper) => NestOf(s, p, helper)
    case ListForEviction(p, b) => Spawn(s, p, b, Evicting(EvictLock))
    case ListForSweep(p, b) => Spawn(s, p, b, Evicting(SweepLock))
    case ReadHead(p, channel) =>
      var parent := if channel in s.heads then s.heads[channel] else None;
      s.(pending := s.pending[p := PendingBuild(channel, parent)])
    case InsertBuild(p, b) =>
      s.(builds := s.builds[b := Build(s.pending[p].channel, s.pending[p].parent)],
         status := s.status[b := Started],
         files := s.files[b := Files(Missing, Missing)],
         pending := s.pending - {p})
    case OpenChannel(channel) => s.(heads := s.heads[channel := None])
    case OpenPatch(b) => SetFiles(s, b, s.files[b].(patch := Uploading))
    case OpenSignature(b) => SetFiles(s, b, s.files[b].(signature := Uploading))
    case FinalizePatch(p, b, patch, size) =>
      Spawn(SetFiles(s, b, s.files[b].(patch := Ready(patch, size))), p, b, Checking(CheckBuild(1)))
    case FinalizeSignature(p, b, signature, size) =>
      Spawn(SetFiles(s, b, s.files[b].(signature := Ready(signature, size))), p, b, Checking(CheckBuild(1)))
    case FinalizeBrokenPatch(p, b) =>
      Spawn(SetFiles(s, b, s.files[b].(patch := Broken)), p, b, Checking(CheckBuild(1)))
    case FinalizeBrokenSignature(p, b) =>
      Spawn(SetFiles(s, b, s.files[b].(signature := Broken)), p, b, Checking(CheckBuild(1)))
    case LosePatch(b) => s.(lost := s.lost + {b})
  }

  ghost predicate Transition(s: State, e: Event, s': State) {
    Enabled(s, e) && s' == Do(s, e)
  }

  ghost predicate TransitionAt(states: seq<State>, events: seq<Event>, i: nat)
    requires i < |events| && |states| == |events| + 1
  {
    Transition(states[i], events[i], states[i + 1])
  }

  /** A run: the states from the empty server on, with the events between them. */
  ghost predicate IsRun(states: seq<State>, events: seq<Event>) {
    && |states| == |events| + 1
    && states[0] == Init()
    && forall i: nat | i < |events| :: TransitionAt(states, events, i)
  }
}
