/** Every step of a process keeps the invariant of the server machine. */
module ServerSteps {
  import opened Records
  import opened Trees
  import opened Server
  import opened ServerInvariant

  // ---------- ensureArchive and rebuildArchive ----------

  /** The tables after the lock holder of a completed build rewrites its row. */
  lemma RewriteTables(s: State, s': State, b: BuildId, row: ArchiveRow)
    requires Tables(s) && b in s.log.completed && b in s.arch && PathOk(s, b, row.path)
    requires row.state == Uploaded ==> row.path.Some? && row.path.value in s.objects
    requires s' == s.(arch := s.arch[b := row], procs := s'.procs, locks := s'.locks,
                      log := s.log.(marks := s'.log.marks, rebuilds := s'.log.rebuilds))
    ensures Tables(s')
  {
    LineageKept(s, s', b);
    LifeKept(s, s', b) by { assert LifeOk(s, b); }
    ContentKept(s, s', b) by { assert RowOk(s, b); }
  }

  /** The lock holder of a completed build rewrites its archive row. */
  lemma RewriteKeeps(s: State, s': State, p: Pid, b: BuildId, row: ArchiveRow)
    requires Inv(s) && p in s.procs && s.procs[p].build == b && Holds(s.procs[p].at)
    requires b in s.log.completed && b in s.arch && PathOk(s, b, row.path)
    requires row.state == Uploaded ==> row.path.Some? && row.path.value in s.objects
    requires p in s'.procs && s'.procs[p].build == b && Holds(s'.procs[p].at)
    requires s' == s.(arch := s.arch[b := row],
                      procs := s.procs[p := s'.procs[p]],
                      log := s.log.(marks := s'.log.marks, rebuilds := s'.log.rebuilds))
    requires LocalOk(s', p, b, s'.procs[p].at)
    ensures Inv(s')
  {
    assert Owns(s, p, b) by { assert ProcOk(s, p, s.procs[p]); }
    RewriteTables(s, s', b, row);
    StepKeeps(s, s', p);
  }

  lemma LockKeeps(s: State, p: Pid, b: BuildId, at: Pc)
    requires Inv(s) && p in s.procs && s.procs[p].build == b && b !in s.locks && !Holds(s.procs[p].at)
    requires at == Ensuring(WarmRow(true)) || at == Evicting(EvictRead) || at == Evicting(SweepRead)
    ensures Inv(Move(s.(locks := s.locks[b := p]), p, b, Some(at)))
  {
    var s' := Move(s.(locks := s.locks[b := p]), p, b, Some(at));
    SameTables(s, s');
    StepKeeps(s, s', p);
  }

  lemma UnlockKeeps(s: State, p: Pid, result: Option<Key>, ok: bool, pick: Format)
    requires Inv(s) && p in s.procs && s.procs[p].at == Unlock(result)
    ensures Inv(Act(s, p, ok, pick))
  {
    var s' := Act(s, p, ok, pick);
    assert ProcOk(s, p, s.procs[p]);
    SameTables(s, s');
    StepKeeps(s, s', p);
  }

  lemma MarkRebuildingKeeps(s: State, p: Pid, found: Option<ArchiveRow>, pick: Format)
    requires Inv(s) && p in s.procs && s.procs[p].at == Ensuring(MarkRebuilding(found))
    ensures Inv(Act(s, p, true, pick))
  {
    var s' := Act(s, p, true, pick);
    var b := s.procs[p].build;
    assert EnsureLocal(s, b, MarkRebuilding(found)) by { assert ProcOk(s, p, s.procs[p]); }
    assert RowOk(s, b);
    assert ChainOk(s', [b], b) by { assert LifeOk(s, b); }
    RewriteKeeps(s, s', p, b, RebuildingCopy(found));
  }

  lemma RevertKeeps(s: State, p: Pid, file: ArchiveRow, pick: Format)
    requires Inv(s) && p in s.procs && s.procs[p].at == Ensuring(Revert(file))
    ensures Inv(Act(s, p, true, pick))
  {
    assert ProcOk(s, p, s.procs[p]);
    RewriteKeeps(s, Act(s, p, true, pick), p, s.procs[p].build, file);
  }

  lemma EnsureReadKeeps(s: State, p: Pid, pc: EnsurePc, ok: bool)
    requires Inv(s) && p in s.procs && s.procs[p].at == Ensuring(pc)
    requires pc.WarmRow? || pc.WarmHead? || pc.RebuildBuild? || pc.RebuildRow?
    ensures Inv(Move(s, p, s.procs[p].build, Some(AfterEnsure(s, s.procs[p].build, pc, ok))))
  {
    var b := s.procs[p].build;
    assert EnsureLocal(s, b, pc) by { assert ProcOk(s, p, s.procs[p]); }
    if b in s.arch { assert RowOk(s, b); }
    if b in s.builds { assert LifeOk(s, b); }
    LocalStepKeeps(s, p, AfterEnsure(s, b, pc, ok));
  }

  lemma EnsureFailKeeps(s: State, p: Pid, pc: EnsurePc, pick: Format)
    requires Inv(s) && p in s.procs && s.procs[p].at == Ensuring(pc)
    requires pc.LockWait? || pc.MarkRebuilding? || pc.Revert?
    ensures Inv(Act(s, p, false, pick))
  {
    LocalStepKeeps(s, p, if pc.LockWait? then Returned(None) else Unlock(None));
  }

  lemma LockWaitKeeps(s: State, p: Pid, pick: Format)
    requires Inv(s) && p in s.procs && s.procs[p].at == Ensuring(LockWait)
    ensures Inv(Act(s, p, true, pick))
  {
    if s.procs[p].build !in s.locks { LockKeeps(s, p, s.procs[p].build, Ensuring(WarmRow(true))); }
    else { LocalStepKeeps(s, p, Ensuring(LockWait)); }
  }

  lemma EnsureKeeps(s: State, p: Pid, pc: EnsurePc, ok: bool, pick: Format)
    requires Inv(s) && p in s.procs && s.procs[p].at == Ensuring(pc)
    ensures Inv(Act(s, p, ok, pick))
  {
    match pc
    case LockWait => if ok { LockWaitKeeps(s, p, pick); } else { EnsureFailKeeps(s, p, pc, pick); }
    case MarkRebuilding(found) => if ok { MarkRebuildingKeeps(s, p, found, pick); } else { EnsureFailKeeps(s, p, pc,
                                                                                                           pick); }
    case Revert(file) => if ok { RevertKeeps(s, p, file, pick); } else { EnsureFailKeeps(s, p, pc, pick); }
    case _ => EnsureReadKeeps(s, p, pc, ok);
  }

  // ---------- the replay ----------

  lemma AbortKeeps(s: State, p: Pid, job: Job, pc: ReplayPc)
    requires Inv(s) && p in s.procs && s.procs[p].at == Replaying(job, pc)
    ensures Inv(Move(s, p, s.procs[p].build, Some(Abort(job))))
  {
    assert ProcOk(s, p, s.procs[p]);
    LocalStepKeeps(s, p, Abort(job));
  }

  lemma WalkLocal(s: State, b: BuildId, pc: ReplayPc, ok: bool)
    requires Tables(s) && ReplayLocal(s, b, pc)
    requires pc.Walk? || pc.WalkRow? || pc.WalkHead? || pc.LinkRows?
    requires ReadStep(s, pc, ok).Some?
    ensures ReplayLocal(s, b, ReadStep(s, pc, ok).value)
  {
    assert BuildOk(s, pc.chain[0]);
  }

  lemma BaseLocal(s: State, b: BuildId, pc: ReplayPc, ok: bool)
    requires Tables(s) && ReplayLocal(s, b, pc) && pc.Base?
    requires ReadStep(s, pc, ok).Some?
    ensures ReplayLocal(s, b, ReadStep(s, pc, ok).value)
  {
    assert BuildOk(s, pc.chain[0]);
    if pc.base in s.arch { assert RowOk(s, pc.base); }
    if pc.basePhase.BaseGet? && pc.basePhase.key in s.objects { assert ObjectOk(s, pc.basePhase.key); }
  }

  /** Applying the patch of chain[index] gives the fold of chain[index], and so
      the tree that the next patch of the chain must be applied to. */
  lemma LinkApplied(s: State, b: BuildId, chain: seq<BuildId>, index: nat,
                    tree: Tree, expected: Option<Container>, patch: Patch, output: Tree)
    requires Lineage(s) && ReplayLocal(s, b, Link(chain, index, tree, expected, SignatureGet(patch)))
    requires chain[index] in s.files && s.files[chain[index]].signature.Ready?
    requires ApplyStep(patch, s.files[chain[index]].signature.content, tree, expected) == Some(output)
    ensures Fold(s.builds, s.files, chain[index]) == Some(output)
    ensures LinkChecked(s.builds, s.files, chain[index])
    ensures index + 1 < |chain| ==>
              ReadyFor(s, chain[index + 1], output, Some(s.files[chain[index]].signature.content))
  {
    if index + 1 < |chain| { assert BuildOk(s, chain[index + 1]); }
  }

  lemma LinkLocal(s: State, b: BuildId, pc: ReplayPc, ok: bool)
    requires Tables(s) && ReplayLocal(s, b, pc) && pc.Link?
    requires ReadStep(s, pc, ok).Some?
    ensures ReplayLocal(s, b, ReadStep(s, pc, ok).value)
  {
    match pc
    case Link(chain, index, tree, expected, SignatureGet(patch)) =>
      var output := ApplyStep(patch, s.files[chain[index]].signature.content, tree, expected).value;
      LinkApplied(s, b, chain, index, tree, expected, patch, output);
    case _ =>
  }

  lemma ReadLocal(s: State, b: BuildId, pc: ReplayPc, ok: bool)
    requires Tables(s) && ReplayLocal(s, b, pc) && ReadStep(s, pc, ok).Some?
    ensures ReplayLocal(s, b, ReadStep(s, pc, ok).value)
  {
    if pc.Base? { BaseLocal(s, b, pc, ok); }
    else if pc.Link? { LinkLocal(s, b, pc, ok); }
    else { WalkLocal(s, b, pc, ok); }
  }

  lemma OnwardKeeps(s: State, p: Pid, job: Job, pc: ReplayPc, ok: bool)
    requires Inv(s) && p in s.procs && s.procs[p].at == Replaying(job, pc) && ReadStep(s, pc, ok).Some?
    ensures Inv(Move(s, p, s.procs[p].build, Some(Replaying(job, ReadStep(s, pc, ok).value))))
  {
    var b := s.procs[p].build;
    assert JobOk(s, p, b, job) && ReplayLocal(s, b, pc) by { assert ProcOk(s, p, s.procs[p]); }
    ReadLocal(s, b, pc, ok);
    LocalStepKeeps(s, p, Replaying(job, ReadStep(s, pc, ok).value));
  }

  lemma ReadKeeps(s: State, p: Pid, job: Job, pc: ReplayPc, ok: bool, pick: Format)
    requires Inv(s) && p in s.procs && s.procs[p].at == Replaying(job, pc)
    requires !pc.Put? && !pc.Save?
    ensures Inv(Act(s, p, ok, pick))
  {
    if ReadStep(s, pc, ok).Some? { OnwardKeeps(s, p, job, pc, ok); } else { AbortKeeps(s, p, job, pc); }
  }

  lemma UploadTables(s: State, s': State, b: BuildId, tree: Tree, pick: Format)
    requires Tables(s) && Fold(s.builds, s.files, b) == Some(tree)
    requires s' == s.(objects := s.objects[Key(b, s.uuids, pick) := Archive(pick, tree)], uuids := s.uuids + 1,
                      procs := s'.procs)
    ensures Tables(s')
  {
    assert b in s.builds;
    LineageKept(s, s', b);
    LifeKept(s, s', b) by { assert LifeOk(s, b); }
    forall key | key in s.objects ensures key.uuid < s.uuids { assert ObjectOk(s, key); }
    ContentKept(s, s', b) by { if b in s.arch { assert RowOk(s, b); } }
  }

  lemma UploadLocal(s: State, s': State, p: Pid, b: BuildId, job: Job, tree: Tree, pick: Format)
    requires JobOk(s, p, b, job) && ReplayLocal(s, b, Put(tree))
    requires s' == s.(objects := s.objects[Key(b, s.uuids, pick) := Archive(pick, tree)], uuids := s.uuids + 1,
                      procs := s'.procs)
    ensures LocalOk(s', p, b, Replaying(job, Save(Key(b, s.uuids, pick)))) && Guarantee(s, s', p)
  {
  }

  lemma UploadedKeeps(s: State, s': State, p: Pid, b: BuildId, job: Job, tree: Tree, pick: Format)
    requires Inv(s) && p in s.procs && s.procs[p] == Proc(b, Replaying(job, Put(tree)))
    requires s' == s.(objects := s.objects[Key(b, s.uuids, pick) := Archive(pick, tree)], uuids := s.uuids + 1,
                      procs := s.procs[p := Proc(b, Replaying(job, Save(Key(b, s.uuids, pick))))])
    ensures Inv(s')
  {
    assert JobOk(s, p, b, job) && ReplayLocal(s, b, Put(tree)) && (job.Rebuild? ==> Owns(s, p, b)) by {
      assert ProcOk(s, p, s.procs[p]);
    }
    assert OnlyOf(s, s', p);
    UploadTables(s, s', b, tree, pick);
    UploadLocal(s, s', p, b, job, tree, pick);
    StepKeeps(s, s', p);
  }

  lemma UploadKeeps(s: State, p: Pid, job: Job, tree: Tree, pick: Format)
    requires Inv(s) && p in s.procs && s.procs[p].at == Replaying(job, Put(tree))
    ensures Inv(Act(s, p, true, pick))
  {
    UploadedKeeps(s, Act(s, p, true, pick), p, s.procs[p].build, job, tree, pick);
  }

  lemma InsertTables(s: State, s': State, p: Pid, b: BuildId, key: Key)
    requires Tables(s) && Generating(s, p, b) && LinkChecked(s.builds, s.files, b)
    requires PathOk(s, b, Some(key)) && key in s.objects
    requires s' == InsertRow(s, b, ArchiveRow(Uploaded, Some(key), false)).(procs := s'.procs)
    ensures Tables(s')
  {
    LineageKept(s, s', b);
    LifeKept(s, s', b) by { assert LifeOk(s, b); }
    ContentKept(s, s', b);
  }

  /** The claimant inserts the first archive row of its build. */
  lemma InsertedKeeps(s: State, s': State, p: Pid, b: BuildId, key: Key, depth: nat)
    requires Inv(s) && p in s.procs && s.procs[p] == Proc(b, Replaying(Generate(depth), Save(key)))
    requires s' == InsertRow(s, b, ArchiveRow(Uploaded, Some(key),
                                              false)).(procs := s.procs[p := Proc(b, Checking(CheckBuild(depth + 1)))])
    ensures Inv(s')
  {
    assert JobOk(s, p, b, Generate(depth)) && ReplayLocal(s, b, Save(key)) by { assert ProcOk(s, p, s.procs[p]); }
    InsertTables(s, s', p, b, key);
    InsertIsAllowed(s, s', p, b, ArchiveRow(Uploaded, Some(key), false));
    StepKeeps(s, s', p);
  }

  lemma InsertIsAllowed(s: State, s': State, p: Pid, b: BuildId, row: ArchiveRow)
    requires Generating(s, p, b) && s' == InsertRow(s, b, row).(procs := s'.procs)
    ensures Guarantee(s, s', p)
  {
  }

  lemma InsertKeeps(s: State, p: Pid, key: Key, depth: nat, pick: Format)
    requires Inv(s) && p in s.procs && s.procs[p].at == Replaying(Generate(depth), Save(key))
    ensures Inv(Act(s, p, true, pick))
  {
    InsertedKeeps(s, Act(s, p, true, pick), p, s.procs[p].build, key, depth);
  }

  lemma SaveKeeps(s: State, p: Pid, job: Job, key: Key, ok: bool, pick: Format)
    requires Inv(s) && p in s.procs && s.procs[p].at == Replaying(job, Save(key))
    ensures Inv(Act(s, p, ok, pick))
  {
    if job.Generate? && ok {
      InsertKeeps(s, p, key, job.depth, pick);
    } else {
      var b := s.procs[p].build;
      assert JobOk(s, p, b, job) && ReplayLocal(s, b, Save(key)) by { assert ProcOk(s, p, s.procs[p]); }
      if ok { RewriteKeeps(s, Act(s, p, ok, pick), p, b, ArchiveRow(Uploaded, Some(key), false)); }
      else { LocalStepKeeps(s, p, AfterSave(job, key, ok)); }
    }
  }

  lemma ReplayKeeps(s: State, p: Pid, job: Job, pc: ReplayPc, ok: bool, pick: Format)
    requires Inv(s) && p in s.procs && s.procs[p].at == Replaying(job, pc)
    ensures Inv(Act(s, p, ok, pick))
  {
    match pc
    case Put(tree) => if ok { UploadKeeps(s, p, job, tree, pick); } else { AbortKeeps(s, p, job, pc); }
    case Save(key) => SaveKeeps(s, p, job, key, ok, pick);
    case _ => ReadKeeps(s, p, job, pc, ok, pick);
  }

  // ---------- checkAndUpdateBuildState ----------

  lemma EndKeeps(s: State, p: Pid)
    requires Inv(s) && p in s.procs && !Holds(s.procs[p].at)
    ensures Inv(Move(s, p, s.procs[p].build, None))
  {
    var s' := Move(s, p, s.procs[p].build, None);
    SameTables(s, s');
    StepKeeps(s, s', p);
  }

  lemma ClaimTables(s: State, s': State, p: Pid, b: BuildId)
    requires Tables(s) && b in s.builds && s.status[b] == Started && HasContent(s.files, b)
    requires s' == s.(status := s.status[b := Processing], procs := s'.procs,
                      log := s.log.(claims := s.log.claims + multiset{b}, claimant := s.log.claimant[b := p]))
    ensures Tables(s')
  {
    LineageKept(s, s', b);
    LifeKept(s, s', b) by { assert LifeOk(s, b); }
    ContentKept(s, s', b);
  }

  /** The winner of the claim starts from its own patch, on top of its parent. */
  lemma ClaimLocal(s: State, p: Pid, b: BuildId)
    requires Generating(s, p, b) && b in s.builds
    ensures LocalOk(s, p, b, Replaying(Generate(1), StartReplay([b], s.builds[b].parent)))
    ensures LocalOk(s, p, b, StartGeneration(b, s.builds[b].parent, 1))
  {
    assert ChainOk(s, [b], b);
  }

  lemma ClaimedKeeps(s: State, s': State, p: Pid, b: BuildId, depth: nat)
    requires Inv(s) && p in s.procs && s.procs[p] == Proc(b, Checking(Claim(depth)))
    requires KnownBuild(s, b) && s.status[b] == Started
    requires s' == s.(status := s.status[b := Processing],
                      procs := s.procs[p := Proc(b, StartGeneration(b, s.builds[b].parent, depth))],
                      log := s.log.(claims := s.log.claims + multiset{b}, claimant := s.log.claimant[b := p]))
    ensures Inv(s')
  {
    assert CheckLocal(s, p, b, Claim(depth)) by { assert ProcOk(s, p, s.procs[p]); }
    assert LifeOk(s, b);
    ClaimTables(s, s', p, b);
    ClaimLocal(s', p, b);
    StepKeeps(s, s', p);
  }

  lemma ClaimKeeps(s: State, p: Pid, depth: nat, pick: Format)
    requires Inv(s) && p in s.procs && s.procs[p].at == Checking(Claim(depth))
    requires KnownBuild(s, s.procs[p].build) && s.status[s.procs[p].build] == Started
    ensures Inv(Act(s, p, true, pick))
  {
    ClaimedKeeps(s, Act(s, p, true, pick), p, s.procs[p].build, depth);
  }

  lemma FailTables(s: State, s': State, b: BuildId)
    requires Tables(s) && b in s.builds && b !in s.log.completed
    requires s' == s.(status := s.status[b := Failed], procs := s'.procs)
    ensures Tables(s')
  {
    LineageKept(s, s', b);
    LifeKept(s, s', b) by { assert LifeOk(s, b); }
    ContentKept(s, s', b) by { if b in s.arch { assert RowOk(s, b); } }
  }

  lemma FailKeeps(s: State, p: Pid, pc: CheckPc, pick: Format)
    requires Inv(s) && p in s.procs && s.procs[p].at == Checking(pc) && (pc.FailBroken? || pc.FailGeneration?)
    requires KnownBuild(s, s.procs[p].build)
    ensures Inv(Act(s, p, true, pick))
  {
    var s' := Act(s, p, true, pick);
    var b := s.procs[p].build;
    assert CheckLocal(s, p, b, pc) by { assert ProcOk(s, p, s.procs[p]); }
    assert LifeOk(s, b);
    FailTables(s, s', b);
    StepKeeps(s, s', p);
  }

  lemma CompleteTables(s: State, s': State, b: BuildId)
    requires Tables(s) && b in s.arch
    requires s' == s.(status := s.status[b := Completed], procs := s'.procs,
                      log := s.log.(completed := s.log.completed + {b}))
    ensures Tables(s')
  {
    LineageKept(s, s', b);
    LifeKept(s, s', b) by { assert LifeOk(s, b); }
    ContentKept(s, s', b) by { assert RowOk(s, b); }
  }

  lemma CompleteKeeps(s: State, p: Pid, pick: Format)
    requires Inv(s) && p in s.procs && s.procs[p].at == Checking(Complete) && KnownBuild(s, s.procs[p].build)
    ensures Inv(Act(s, p, true, pick))
  {
    var s' := Act(s, p, true, pick);
    var b := s.procs[p].build;
    assert CheckLocal(s, p, b, Complete) by { assert ProcOk(s, p, s.procs[p]); }
    CompleteTables(s, s', b);
    StepKeeps(s, s', p);
  }

  lemma CrownTables(s: State, s': State, b: BuildId)
    requires Tables(s) && b in s.log.completed
    requires s' == s.(heads := s.heads[s.builds[b].channel := Some(b)], procs := s'.procs,
                      log := s.log.(crowned := s.log.crowned + multiset{b}))
    ensures Tables(s')
  {
    assert Lineage(s') by {
      forall x | x in s.builds ensures BuildOk(s', x) { assert BuildOk(s, x); }
    }
    LifeKept(s, s', b) by { assert LifeOk(s, b); }
    ContentKept(s, s', b) by { if b in s.arch { assert RowOk(s, b); } }
  }

  lemma CrownKeeps(s: State, p: Pid, pick: Format)
    requires Inv(s) && p in s.procs && s.procs[p].at == Checking(Crown) && KnownBuild(s, s.procs[p].build)
    ensures Inv(Act(s, p, true, pick))
  {
    var s' := Act(s, p, true, pick);
    var b := s.procs[p].build;
    assert CheckLocal(s, p, b, Crown) by { assert ProcOk(s, p, s.procs[p]); }
    if s.builds[b].channel !in s.heads { EndKeeps(s, p); } else {
      CrownTables(s, s', b);
      StepKeeps(s, s', p);
    }
  }

  lemma CheckReadKeeps(s: State, p: Pid, pc: CheckPc, pick: Format)
    requires Inv(s) && p in s.procs && s.procs[p].at == Checking(pc) && (pc.CheckBuild? || pc.CheckFiles?)
    requires KnownBuild(s, s.procs[p].build)
    ensures Inv(Act(s, p, true, pick))
  {
    var b := s.procs[p].build;
    var at := AfterCheck(s, b, pc, true);
    if at.None? {
      EndKeeps(s, p);
    } else {
      assert CheckLocal(s, p, b, pc) by { assert ProcOk(s, p, s.procs[p]); }
      assert LifeOk(s, b);
      LocalStepKeeps(s, p, at.value);
    }
  }

  /** While a generation asks for its parent's archive. */
  lemma AskKeeps(s: State, p: Pid, pc: CheckPc, ok: bool, pick: Format)
    requires Inv(s) && p in s.procs && s.procs[p].at == Checking(pc) && (pc.AskParent? || pc.AwaitParent?)
    ensures Inv(Act(s, p, ok, pick))
  {
    var b := s.procs[p].build;
    assert CheckLocal(s, p, b, pc) by { assert ProcOk(s, p, s.procs[p]); }
    ClaimLocal(s, p, b);
    LocalStepKeeps(s, p, AfterCheck(s, b, pc, ok).value);
  }

  /** A check whose call fails, or whose claim comes too late, ends. */
  lemma CheckEndKeeps(s: State, p: Pid, pc: CheckPc, ok: bool, pick: Format)
    requires Inv(s) && p in s.procs && s.procs[p].at == Checking(pc) && !pc.AskParent? && !pc.AwaitParent?
    requires var b := s.procs[p].build;
             !ok || !KnownBuild(s, b) || (pc.Claim? && s.status[b] != Started)
    ensures Inv(Act(s, p, ok, pick))
  {
    EndKeeps(s, p);
  }

  lemma CheckKeeps(s: State, p: Pid, pc: CheckPc, ok: bool, pick: Format)
    requires Inv(s) && p in s.procs && s.procs[p].at == Checking(pc)
    ensures Inv(Act(s, p, ok, pick))
  {
    var b := s.procs[p].build;
    if pc.AskParent? || pc.AwaitParent? { AskKeeps(s, p, pc, ok, pick); }
    else if !ok || !KnownBuild(s, b) || (pc.Claim? && s.status[b] != Started) { CheckEndKeeps(s, p, pc, ok, pick); }
    else { CallKeeps(s, p, pc, pick); }
  }

  lemma CallKeeps(s: State, p: Pid, pc: CheckPc, pick: Format)
    requires Inv(s) && p in s.procs && s.procs[p].at == Checking(pc) && KnownBuild(s, s.procs[p].build)
    requires !pc.AskParent? && !pc.AwaitParent? && (pc.Claim? ==> s.status[s.procs[p].build] == Started)
    ensures Inv(Act(s, p, true, pick))
  {
    match pc
    case Claim(depth) => ClaimKeeps(s, p, depth, pick);
    case FailBroken => FailKeeps(s, p, pc, pick);
    case FailGeneration => FailKeeps(s, p, pc, pick);
    case Complete => CompleteKeeps(s, p, pick);
    case Crown => CrownKeeps(s, p, pick);
    case _ => CheckReadKeeps(s, p, pc, pick);
  }

  // ---------- evictArchive and sweepEvictedObjects ----------

  lemma DeleteTables(s: State, s': State, b: BuildId, key: Key)
    requires Tables(s) && b in s.arch && s.arch[b].state == Evicted && key.build == b
    requires s' == s.(objects := s.objects - {key}, procs := s'.procs)
    ensures Tables(s')
  {
    LineageKept(s, s', b);
    LifeKept(s, s', b) by { assert LifeOk(s, b); }
    ContentKept(s, s', b) by { assert RowOk(s, b); }
  }

  lemma DeletedKeeps(s: State, s': State, p: Pid, b: BuildId, row: ArchiveRow)
    requires Inv(s) && p in s.procs && s.procs[p] == Proc(b, Evicting(DeleteObject(row))) && row.path.Some?
    requires s' == s.(objects := s.objects - {row.path.value},
                      procs := s.procs[p := Proc(b, Evicting(ClearPath(ArchiveRow(row.state, None, row.evictedAt))))])
    ensures Inv(s')
  {
    assert EvictLocal(s, b, DeleteObject(row)) && Owns(s, p, b) by { assert ProcOk(s, p, s.procs[p]); }
    DeleteTables(s, s', b, row.path.value);
    StepKeeps(s, s', p);
  }

  lemma DeleteKeeps(s: State, p: Pid, row: ArchiveRow, pick: Format)
    requires Inv(s) && p in s.procs && s.procs[p].at == Evicting(DeleteObject(row)) && row.path.Some?
    ensures Inv(Act(s, p, true, pick))
  {
    DeletedKeeps(s, Act(s, p, true, pick), p, s.procs[p].build, row);
  }

  lemma EvictWriteKeeps(s: State, p: Pid, pc: EvictPc, pick: Format)
    requires Inv(s) && p in s.procs && s.procs[p].at == Evicting(pc) && (pc.EvictMark? || pc.ClearPath?)
    ensures Inv(Act(s, p, true, pick))
  {
    var b := s.procs[p].build;
    assert EvictLocal(s, b, pc) by { assert ProcOk(s, p, s.procs[p]); }
    assert LifeOk(s, b) && RowOk(s, b);
    RewriteKeeps(s, Act(s, p, true, pick), p, b, if pc.EvictMark? then MarkedRow(pc.row) else pc.row);
  }

  lemma EvictReadKeeps(s: State, p: Pid, pc: EvictPc, ok: bool)
    requires Inv(s) && p in s.procs && s.procs[p].at == Evicting(pc)
    requires pc.EvictRead? || pc.Guard? || pc.SweepRead?
    ensures Inv(Move(s, p, s.procs[p].build, AfterEvict(s, s.procs[p].build, pc, ok)))
  {
    var b := s.procs[p].build;
    assert EvictLocal(s, b, pc) by { assert ProcOk(s, p, s.procs[p]); }
    if b in s.builds { assert LifeOk(s, b); }
    if b in s.arch { assert RowOk(s, b); }
    LocalStepKeeps(s, p, AfterEvict(s, b, pc, ok).value);
  }

  lemma TryLockKeeps(s: State, p: Pid, pc: EvictPc, ok: bool, pick: Format)
    requires Inv(s) && p in s.procs && s.procs[p].at == Evicting(pc) && (pc.EvictLock? || pc.SweepLock?)
    ensures Inv(Act(s, p, ok, pick))
  {
    var b := s.procs[p].build;
    if !ok || b in s.locks { EndKeeps(s, p); }
    else { LockKeeps(s, p, b, Evicting(if pc.EvictLock? then EvictRead else SweepRead)); }
  }

  lemma EvictFailKeeps(s: State, p: Pid, pc: EvictPc, ok: bool, pick: Format)
    requires Inv(s) && p in s.procs && s.procs[p].at == Evicting(pc)
    requires if pc.DeleteObject? then !ok || pc.row.path.None? else !ok && (pc.EvictMark? || pc.ClearPath?)
    ensures Inv(Act(s, p, ok, pick))
  {
    LocalStepKeeps(s, p, Unlock(None));
  }

  lemma EvictKeeps(s: State, p: Pid, pc: EvictPc, ok: bool, pick: Format)
    requires Inv(s) && p in s.procs && s.procs[p].at == Evicting(pc)
    ensures Inv(Act(s, p, ok, pick))
  {
    match pc
    case EvictLock => TryLockKeeps(s, p, pc, ok, pick);
    case SweepLock => TryLockKeeps(s, p, pc, ok, pick);
    case EvictMark(_) => if ok { EvictWriteKeeps(s, p, pc, pick); } else { EvictFailKeeps(s, p, pc, ok, pick); }
    case ClearPath(_) => if ok { EvictWriteKeeps(s, p, pc, pick); } else { EvictFailKeeps(s, p, pc, ok, pick); }
    case DeleteObject(row) =>
      if ok && row.path.Some? { DeleteKeeps(s, p, row, pick); } else { EvictFailKeeps(s, p, pc, ok, pick); }
    case _ => EvictReadKeeps(s, p, pc, ok);
  }

  lemma ActKeeps(s: State, p: Pid, ok: bool, pick: Format)
    requires Inv(s) && p in s.procs
    ensures Inv(Act(s, p, ok, pick))
  {
    match s.procs[p].at
    case Ensuring(pc) => EnsureKeeps(s, p, pc, ok, pick);
    case Replaying(job, pc) => ReplayKeeps(s, p, job, pc, ok, pick);
    case Checking(pc) => CheckKeeps(s, p, pc, ok, pick);
    case Evicting(pc) => EvictKeeps(s, p, pc, ok, pick);
    case Unlock(result) => UnlockKeeps(s, p, result, ok, pick);
    case Returned(result) => LocalStepKeeps(s, p, Returned(result)) by { assert ProcOk(s, p, s.procs[p]); }
  }
}
