/** The invariant of the server machine, and its rely and guarantee: each process
    has a local assertion about the rows it works on, a step of one process only
    changes what Guarantee allows, and such a change keeps every other process's
    assertion. That every event keeps the invariant is proved in ServerSteps and
    ServerRuns. */
module ServerInvariant {
  import opened Records
  import opened Trees
  import opened Server

  // ---------- the shared tables ----------

  ghost predicate ParentOk(s: State, channel: Channel, parent: Option<BuildId>) {
    parent.Some? ==>
      && parent.value in s.builds
      && s.builds[parent.value].channel == channel
      && parent.value in s.log.completed
  }

  ghost predicate BuildOk(s: State, b: BuildId)
    requires b in s.builds
  {
    && ParentOk(s, s.builds[b].channel, s.builds[b].parent)
    && (s.builds[b].parent.Some? ==> s.builds[b].parent.value < b)
  }

  ghost predicate Lineage(s: State) {
    && s.status.Keys == s.builds.Keys
    && s.files.Keys == s.builds.Keys
    && s.log.completed <= s.builds.Keys
    && (forall b {:trigger BuildOk(s, b)} | b in s.builds :: BuildOk(s, b))
    && (forall p | p in s.pending :: ParentOk(s, s.pending[p].channel, s.pending[p].parent))
    && (forall channel | channel in s.heads :: ParentOk(s, channel, s.heads[channel]))
  }

  /** Both required files are finalized, and neither is empty. */
  predicate HasContent(files: map<BuildId, Files>, b: BuildId) {
    FilesReady(files, b) && files[b].patch.size > 0 && files[b].signature.size > 0
  }

  ghost predicate LifeOk(s: State, b: BuildId)
    requires b in s.builds && b in s.status
  {
    && (s.status[b] == Started ==> b !in s.log.claimant)
    && (s.status[b] == Processing ==> b in s.log.claimant)
    && (b in s.log.completed <==> s.status[b] == Completed)
    && (b in s.log.completed ==> b in s.arch)
    && (b in s.log.claimant ==> HasContent(s.files, b))
    && (b in s.arch ==> b in s.log.claimant && LinkChecked(s.builds, s.files, b))
    && (b in s.arch && b !in s.log.completed ==> s.arch[b].state == Uploaded)
  }

  ghost predicate Life(s: State)
    requires Lineage(s)
  {
    && s.arch.Keys <= s.builds.Keys
    && s.log.claimant.Keys <= s.builds.Keys
    && (forall b {:trigger LifeOk(s, b)} | b in s.builds :: LifeOk(s, b))
  }

  ghost predicate Counts(s: State) {
    && (forall b: BuildId :: s.log.claims[b] == if b in s.log.claimant then 1 else 0)
    && (forall b: BuildId :: s.log.inserts[b] == if b in s.arch then 1 else 0)
  }

  ghost predicate ObjectOk(s: State, key: Key)
    requires key in s.objects
  {
    && key.uuid < s.uuids
    && s.objects[key].format == key.format
    && Fold(s.builds, s.files, key.build) == Some(s.objects[key].tree)
  }

  ghost predicate PathOk(s: State, b: BuildId, path: Option<Key>) {
    path.Some? ==> path.value.build == b && path.value.uuid < s.uuids
  }

  ghost predicate RowOk(s: State, b: BuildId)
    requires b in s.arch
  {
    && PathOk(s, b, s.arch[b].path)
    && (s.arch[b].state == Uploaded ==> s.arch[b].path.Some? && s.arch[b].path.value in s.objects)
  }

  ghost predicate Content(s: State) {
    && (forall key {:trigger ObjectOk(s, key)} | key in s.objects :: ObjectOk(s, key))
    && (forall b {:trigger RowOk(s, b)} | b in s.arch :: RowOk(s, b))
  }

  ghost predicate Tables(s: State) {
    Lineage(s) && Life(s) && Counts(s) && Content(s)
  }

  // ---------- locks and processes ----------

  /** The calls made while holding the lock of the process's build. */
  predicate Holds(at: Pc) {
    match at
    case Ensuring(pc) => EnsureHolds(pc)
    case Replaying(job, _) => job.Rebuild?
    case Checking(_) => false
    case Evicting(pc) => !pc.EvictLock? && !pc.SweepLock?
    case Unlock(_) => true
    case Returned(_) => false
  }

  predicate EnsureHolds(pc: EnsurePc) {
    match pc
    case WarmRow(locked) => locked
    case WarmHead(locked, _) => locked
    case LockWait => false
    case _ => true
  }

  ghost predicate Owns(s: State, p: Pid, b: BuildId) {
    b in s.locks && s.locks[b] == p
  }

  ghost predicate Locks(s: State) {
    forall b | b in s.locks ::
      s.locks[b] in s.procs && s.procs[s.locks[b]].build == b && Holds(s.procs[s.locks[b]].at)
  }

  ghost predicate ChainOk(s: State, chain: seq<BuildId>, b: BuildId) {
    && 1 <= |chain| <= MAX_CHAIN_LENGTH + 1
    && chain[|chain| - 1] == b
    && (forall i | 0 <= i < |chain| :: chain[i] in s.builds)
    && (forall i | 0 < i < |chain| :: s.builds[chain[i]].parent == Some(chain[i - 1]))
  }

  ghost predicate JobOk(s: State, p: Pid, b: BuildId, job: Job) {
    match job
    case Rebuild(file, _) =>
      b in s.log.completed && b in s.arch && s.arch[b] == file && file.state == Rebuilding && PathOk(s, b, file.path)
    case Generate(depth) => depth == 1 && Generating(s, p, b)
  }

  /** p won the claim on b and has not inserted the archive row yet. */
  ghost predicate Generating(s: State, p: Pid, b: BuildId) {
    && b in s.log.claimant && s.log.claimant[b] == p
    && b !in s.arch
    && b in s.status && s.status[b] == Processing
  }

  /** tree and expected are what the patch of build c must be applied to. */
  ghost predicate ReadyFor(s: State, c: BuildId, tree: Tree, expected: Option<Container>) {
    && c in s.builds
    && Before(s.builds, s.files, c) == Some(tree)
    && expected == Expected(s.builds, s.files, c)
    && (s.builds[c].parent.Some? ==>
          s.builds[c].parent.value in s.files && s.files[s.builds[c].parent.value].signature.Ready?)
  }

  ghost predicate BaseOk(s: State, base: BuildId, phase: BasePhase) {
    match phase
    case BaseRow => true
    case BaseGet(key) => PathOk(s, base, Some(key))
    case BaseSignatureRow(tree) => Fold(s.builds, s.files, base) == Some(tree)
    case BaseSignatureGet(tree) => Fold(s.builds, s.files, base) == Some(tree)
  }

  // What process p, working on build b, knows before its next call.

  ghost predicate EnsureLocal(s: State, b: BuildId, pc: EnsurePc) {
    match pc
    case WarmHead(_, key) => PathOk(s, b, Some(key))
    case RebuildRow => b in s.log.completed
    case MarkRebuilding(found) => b in s.log.completed && b in s.arch && found == Some(s.arch[b])
    case Revert(file) =>
      && b in s.log.completed && b in s.arch && s.arch[b].state == Rebuilding
      && file.state == Evicted && PathOk(s, b, file.path)
    case _ => true
  }

  ghost predicate ReplayLocal(s: State, b: BuildId, pc: ReplayPc) {
    match pc
    case Walk(chain, current) => ChainOk(s, chain, b) && current == chain[0]
    case WalkRow(chain, parent) =>
      ChainOk(s, chain, b) && |chain| <= MAX_CHAIN_LENGTH && s.builds[chain[0]].parent == Some(parent)
    case WalkHead(chain, parent, _) =>
      ChainOk(s, chain, b) && |chain| <= MAX_CHAIN_LENGTH && s.builds[chain[0]].parent == Some(parent)
    case LinkRows(chain, warmBase, index, _) =>
      ChainOk(s, chain, b) && s.builds[chain[0]].parent == warmBase && index < |chain|
    case Base(chain, base, phase) =>
      ChainOk(s, chain, b) && s.builds[chain[0]].parent == Some(base) && BaseOk(s, base, phase)
    case Link(chain, index, tree, expected, phase) =>
      && ChainOk(s, chain, b) && index < |chain|
      && ReadyFor(s, chain[index], tree, expected)
      && (phase.SignatureGet? ==> HasPatch(s, chain[index], phase.patch))
    case Put(tree) => LinkChecked(s.builds, s.files, b) && Fold(s.builds, s.files, b) == Some(tree)
    case Save(key) => LinkChecked(s.builds, s.files, b) && PathOk(s, b, Some(key)) && key in s.objects
  }

  ghost predicate HasPatch(s: State, c: BuildId, patch: Patch) {
    c in s.files && s.files[c].patch.Ready? && s.files[c].patch.content == patch
  }

  ghost predicate HasParent(s: State, b: BuildId) {
    b in s.builds && s.builds[b].parent.Some?
  }

  ghost predicate CheckLocal(s: State, p: Pid, b: BuildId, pc: CheckPc) {
    match pc
    case CheckBuild(depth) => 1 <= depth <= 2 && (depth == 2 ==> b in s.log.claimant)
    case CheckFiles(depth, seen) => 1 <= depth <= 2 && (depth == 2 ==> seen == Processing)
    case Claim(depth) => depth == 1 && HasContent(s.files, b)
    case AskParent(depth) => depth == 1 && Generating(s, p, b) && HasParent(s, b)
    case AwaitParent(depth, _) => depth == 1 && Generating(s, p, b) && HasParent(s, b)
    case FailBroken => b in s.files && (s.files[b].patch.Broken? || s.files[b].signature.Broken?)
    case FailGeneration => Generating(s, p, b)
    case Complete => b in s.arch
    case Crown => b in s.log.completed
  }

  ghost predicate Candidate(s: State, b: BuildId, row: ArchiveRow) {
    b in s.arch && s.arch[b] == row && row.state == Uploaded && row.path.Some?
  }

  ghost predicate EvictLocal(s: State, b: BuildId, pc: EvictPc) {
    match pc
    case Guard(row, check) =>
      Candidate(s, b, row) && (check != NotHead && check != BuildCompleted ==> b in s.log.completed)
    case EvictMark(row) => Candidate(s, b, row) && b in s.log.completed
    case DeleteObject(row) => b in s.arch && s.arch[b] == row && row.state == Evicted && PathOk(s, b, row.path)
    case ClearPath(row) => b in s.arch && s.arch[b].state == Evicted && row.state == Evicted && row.path.None?
    case _ => true
  }

  ghost predicate LocalOk(s: State, p: Pid, b: BuildId, at: Pc) {
    match at
    case Ensuring(pc) => EnsureLocal(s, b, pc)
    case Replaying(job, pc) => JobOk(s, p, b, job) && ReplayLocal(s, b, pc)
    case Checking(pc) => CheckLocal(s, p, b, pc)
    case Evicting(pc) => EvictLocal(s, b, pc)
    case Unlock(result) => PathOk(s, b, result)
    case Returned(result) => PathOk(s, b, result)
  }

  ghost predicate ProcOk(s: State, p: Pid, proc: Proc) {
    (Holds(proc.at) ==> Owns(s, p, proc.build)) && LocalOk(s, p, proc.build, proc.at)
  }

  ghost predicate Procs(s: State) {
    forall p {:trigger ProcOk(s, p, s.procs[p])} | p in s.procs :: ProcOk(s, p, s.procs[p])
  }

  ghost predicate Inv(s: State) {
    Tables(s) && Locks(s) && Procs(s)
  }

  // ---------- rely and guarantee ----------

  /** What a step of process p may do to the shared state. */
  ghost predicate Guarantee(s: State, s': State, p: Pid) {
    && s'.builds == s.builds && s'.files == s.files
    && s'.status.Keys == s.status.Keys && s'.uuids >= s.uuids
    && s.log.completed <= s'.log.completed
    // locks held by others stay held, and the rows they protect do not change
    && (forall b | b in s.locks && s.locks[b] != p :: b in s'.locks && s'.locks[b] == s.locks[b])
    && (forall b | b in s.arch :: b in s'.arch)
    && (forall b | b in s.arch && b in s.locks && s.locks[b] != p :: s'.arch[b] == s.arch[b])
    // only the claimant inserts a row
    && (forall b | b !in s.arch && b in s'.arch :: b in s.log.claimant && s.log.claimant[b] == p)
    && (forall b | b in s.log.claimant :: b in s'.log.claimant && s'.log.claimant[b] == s.log.claimant[b])
    && (forall b | b in s.log.claimant && s.log.claimant[b] != p && b !in s.arch && b in s.status ::
              s'.status[b] == s.status[b])
    // only the lock holder deletes an object
    && (forall key | key in s.objects :: key in s'.objects || (key.build in s.arch && Owns(s, p, key.build)))
  }

  lemma RelyEnsure(s: State, s': State, p: Pid, q: Pid, b: BuildId, pc: EnsurePc)
    requires Guarantee(s, s', p) && q != p
    requires EnsureLocal(s, b, pc) && (EnsureHolds(pc) ==> Owns(s, q, b))
    ensures EnsureLocal(s', b, pc)
  {
  }

  lemma RelyJob(s: State, s': State, p: Pid, q: Pid, b: BuildId, job: Job)
    requires Guarantee(s, s', p) && q != p
    requires JobOk(s, q, b, job) && (job.Rebuild? ==> Owns(s, q, b))
    ensures JobOk(s', q, b, job)
  {
  }

  lemma RelyReplay(s: State, s': State, p: Pid, q: Pid, b: BuildId, job: Job, pc: ReplayPc)
    requires Guarantee(s, s', p) && q != p
    requires JobOk(s, q, b, job) && (job.Rebuild? ==> Owns(s, q, b))
    requires ReplayLocal(s, b, pc)
    ensures ReplayLocal(s', b, pc)
  {
  }

  lemma RelyCheck(s: State, s': State, p: Pid, q: Pid, b: BuildId, pc: CheckPc)
    requires Guarantee(s, s', p) && q != p
    requires CheckLocal(s, q, b, pc)
    ensures CheckLocal(s', q, b, pc)
  {
  }

  lemma RelyEvict(s: State, s': State, p: Pid, q: Pid, b: BuildId, pc: EvictPc)
    requires Guarantee(s, s', p) && q != p
    requires EvictLocal(s, b, pc) && (pc.EvictLock? || pc.SweepLock? || Owns(s, q, b))
    ensures EvictLocal(s', b, pc)
  {
  }

  /** Whatever one process does, the assertions of the others survive. */
  lemma Rely(s: State, s': State, p: Pid, q: Pid, proc: Proc)
    requires Guarantee(s, s', p) && q != p
    requires ProcOk(s, q, proc)
    ensures ProcOk(s', q, proc)
  {
    match proc.at
    case Ensuring(pc) => RelyEnsure(s, s', p, q, proc.build, pc);
    case Replaying(job, pc) =>
      RelyJob(s, s', p, q, proc.build, job);
      RelyReplay(s, s', p, q, proc.build, job, pc);
    case Checking(pc) => RelyCheck(s, s', p, q, proc.build, pc);
    case Evicting(pc) => RelyEvict(s, s', p, q, proc.build, pc);
    case Unlock(_) =>
    case Returned(_) =>
  }

  /** The process table and the lock table of s and s' differ at p only. */
  ghost predicate OnlyOf(s: State, s': State, p: Pid) {
    && (s'.procs == s.procs - {p} || (p in s'.procs && s'.procs == s.procs[p := s'.procs[p]]))
    && (forall b | b in s'.locks && s'.locks[b] != p :: b in s.locks && s.locks[b] == s'.locks[b])
    && (forall b | b in s'.locks && s'.locks[b] == p ::
          p in s'.procs && s'.procs[p].build == b && Holds(s'.procs[p].at))
  }

  /** Enough for a step of p: the tables, p's own assertion and the guarantee. */
  lemma StepKeeps(s: State, s': State, p: Pid)
    requires Locks(s) && Procs(s)
    requires Guarantee(s, s', p) && OnlyOf(s, s', p)
    requires Tables(s')
    requires p in s'.procs ==> ProcOk(s', p, s'.procs[p])
    ensures Inv(s')
  {
    forall q | q in s'.procs
      ensures ProcOk(s', q, s'.procs[q])
    {
      if q != p { Rely(s, s', p, q, s.procs[q]); }
    }
  }

  /** What is shared about builds after a step concerning build b only. */
  ghost predicate SameApartFrom(s: State, s': State, b: BuildId) {
    && s'.builds == s.builds && s'.files == s.files && s'.pending == s.pending
    && s'.status.Keys == s.status.Keys
    && (forall x | x in s.status && x != b :: s'.status[x] == s.status[x])
    && (forall x | x != b :: x in s'.arch <==> x in s.arch)
    && (forall x | x in s.arch && x != b :: s'.arch[x] == s.arch[x])
    && (forall x | x != b :: x in s'.log.claimant <==> x in s.log.claimant)
    && (forall x | x != b :: x in s'.log.completed <==> x in s.log.completed)
  }

  lemma LineageKept(s: State, s': State, b: BuildId)
    requires Lineage(s) && b in s.builds && SameApartFrom(s, s', b)
    requires s'.heads == s.heads && (b in s.log.completed ==> b in s'.log.completed)
    ensures Lineage(s')
  {
    forall x | x in s.builds ensures BuildOk(s', x) { assert BuildOk(s, x); }
  }

  lemma LifeKept(s: State, s': State, b: BuildId)
    requires Lineage(s) && Lineage(s') && Life(s) && b in s.builds && SameApartFrom(s, s', b)
    requires LifeOk(s', b)
    ensures Life(s')
  {
    forall x | x in s.builds ensures LifeOk(s', x) { if x != b { assert LifeOk(s, x); } }
  }

  lemma ContentKept(s: State, s': State, b: BuildId)
    requires Content(s) && SameApartFrom(s, s', b) && s.uuids <= s'.uuids
    requires forall key | key in s'.objects && key in s.objects :: s'.objects[key] == s.objects[key]
    requires forall key | key in s'.objects && key !in s.objects :: ObjectOk(s', key)
    requires forall key | key in s.objects && key !in s'.objects :: key.build == b
    requires b in s'.arch ==> RowOk(s', b)
    ensures Content(s')
  {
    forall key | key in s'.objects ensures ObjectOk(s', key) { if key in s.objects { assert ObjectOk(s, key); } }
    forall x | x in s'.arch ensures RowOk(s', x) { if x != b { assert RowOk(s, x); } }
  }

  /** Only processes and locks changed. */
  lemma SameTables(s: State, s': State)
    requires Tables(s)
    requires s' == s.(procs := s'.procs, locks := s'.locks)
    ensures Tables(s')
  {
    forall b | b in s.builds ensures BuildOk(s', b) && LifeOk(s', b) { assert BuildOk(s, b) && LifeOk(s, b); }
    forall key | key in s.objects ensures ObjectOk(s', key) { assert ObjectOk(s, key); }
    forall b | b in s.arch ensures RowOk(s', b) { assert RowOk(s, b); }
  }

  /** A call that only moves p on to its next call. */
  lemma LocalStepKeeps(s: State, p: Pid, at: Pc)
    requires Inv(s) && p in s.procs
    requires Holds(at) == Holds(s.procs[p].at)
    requires LocalOk(s, p, s.procs[p].build, at)
    ensures Inv(Move(s, p, s.procs[p].build, Some(at)))
  {
    var s' := Move(s, p, s.procs[p].build, Some(at));
    assert ProcOk(s, p, s.procs[p]);
    Rely(s, s', p + 1, p, Proc(s.procs[p].build, at));
    SameTables(s, s');
    StepKeeps(s, s', p);
  }
}
