/** The race of the finalizers: whoever finalizes last, and however the checks of a
    build interleave, the outcome is decided by the build's data. It is completed,
    with one archive row, exactly when its patch matches and applies and its
    generation got at the parent's archive, through the nested request and then by
    reading it; otherwise it is failed, with none. */
module ServerFinalize {
  import opened Records
  import opened Trees
  import opened Server
  import opened ServerInvariant
  import opened ServerRuns
  import opened ServerEffects
  import opened ServerCaching

  /** A call of checkAndUpdateBuildState, the archive generation included. */
  predicate Working(at: Pc) {
    at.Checking? || (at.Replaying? && at.job.Generate?)
  }

  ghost predicate WorksOn(s: State, p: Pid, b: BuildId) {
    p in s.procs && s.procs[p].build == b && Working(s.procs[p].at)
  }

  /** For build b: its files are finalized with content, the calls of its checks
      succeed, and none of these is cut short by a crash. */
  ghost predicate Smooth(s: State, e: Event, b: BuildId) {
    match e
    case Step(p, ok, pick) => WorksOn(s, p, b) ==> ok
    case Crash(p) => !WorksOn(s, p, b)
    case FinalizePatch(_, x, _, size) => x == b ==> size > 0
    case FinalizeSignature(_, x, _, size) => x == b ==> size > 0
    case FinalizeBrokenPatch(_, x) => x != b
    case FinalizeBrokenSignature(_, x) => x != b
    case _ => true
  }

  ghost function SmoothEvents(b: BuildId): (State, Event) -> bool { (s: State, e: Event) => Smooth(s, e, b) }

  ghost predicate SmoothRun(states: seq<State>, events: seq<Event>, b: BuildId) {
    RunObeys(SmoothEvents(b), states, events)
  }

  /** The nested request of the generation of b has ended without an answer, or the
      parent's archive is gone again when its row is looked up or its object fetched. */
  predicate MissesParent(s: State, b: BuildId, at: Pc) {
    match at
    case Checking(AwaitParent(depth, helper)) => AfterAwait(s, b, depth, helper) == Checking(FailGeneration)
    case Replaying(Generate(_), Base(_, parent, BaseRow)) => !UploadedRow(s, parent)
    case Replaying(Generate(_), Base(_, _, BaseGet(key))) => key !in s.objects
    case _ => false
  }

  predicate Misses(s: State, e: Event, b: BuildId) {
    e.Step? && e.pid in s.procs && s.procs[e.pid].build == b && MissesParent(s, b, s.procs[e.pid].at)
  }

  ghost predicate Missed(states: seq<State>, events: seq<Event>, n: nat, b: BuildId)
    requires n <= |events| < |states|
  {
    exists i: nat :: i < n && Misses(states[i], events[i], b)
  }

  /** The build cannot be completed any more. */
  predicate Spoiled(s: State, b: BuildId, missed: bool) {
    missed || !LinkChecked(s.builds, s.files, b)
  }

  // ---------- what each state says about the outcome ----------

  predicate Sound(files: Files) {
    && !files.patch.Broken? && !files.signature.Broken?
    && (files.patch.Ready? ==> files.patch.size > 0)
    && (files.signature.Ready? ==> files.signature.size > 0)
  }

  /** A generation replays its own patch only. */
  predicate OwnLink(s: State, b: BuildId, pc: ReplayPc) {
    match pc
    case Base(chain, base, _) => chain == [b] && b in s.builds && s.builds[b].parent == Some(base)
    case Link(chain, index, _, _, _) => chain == [b] && index == 0
    case Put(_) => true
    case Save(_) => true
    case _ => false
  }

  predicate ShapeOk(s: State, b: BuildId, at: Pc, missed: bool) {
    && (at == Checking(FailGeneration) ==> Spoiled(s, b, missed))
    && (at.Replaying? && at.job.Generate? ==> !missed && OwnLink(s, b, at.replayPc))
    && (WaitsForRequest(at) ==> !missed)
  }

  ghost predicate OutcomeOk(s: State, b: BuildId, missed: bool)
    requires b in s.files && b in s.status
  {
    && Sound(s.files[b])
    && (missed ==> s.status[b] == Failed || (s.status[b] == Processing && b !in s.arch))
    && (s.status[b] == Failed ==>
          FilesReady(s.files, b) && b !in s.arch && b in s.log.claimant && Spoiled(s, b, missed))
  }

  ghost predicate Decided(s: State, b: BuildId, missed: bool) {
    if b !in s.builds then !missed else
    && b in s.files && b in s.status && OutcomeOk(s, b, missed)
    && forall p | p in s.procs && s.procs[p].build == b :: ShapeOk(s, b, s.procs[p].at, missed)
  }

  /** A patch object is only lost once there is an archive. */
  ghost predicate LostStored(s: State) { s.lost <= s.arch.Keys }

  // ---------- one call of a check of build b ----------

  /** The outcome is settled on as before, now that the call has been made. */
  ghost predicate CallDecides(s: State, s': State, b: BuildId, next: Option<Pc>, missed: bool) {
    && s'.builds == s.builds && s'.files == s.files && b in s'.files && b in s'.status && OutcomeOk(s', b, missed)
    && (next.Some? ==> ShapeOk(s', b, next.value, missed))
  }

  lemma ClaimDecides(s: State, p: Pid, b: BuildId, depth: nat, missed: bool)
    requires KnownBuild(s, b) && LifeOk(s, b) && CheckLocal(s, p, b, Claim(depth)) && OutcomeOk(s, b, missed)
    ensures CallDecides(s, WriteCheck(s, p, b, Claim(depth), true), b, AfterCheck(s, b, Claim(depth), true), missed)
  {
  }

  lemma EndDecides(s: State, p: Pid, b: BuildId, pc: CheckPc, missed: bool)
    requires KnownBuild(s, b) && LifeOk(s, b) && CheckLocal(s, p, b, pc) && OutcomeOk(s, b, missed)
    requires ShapeOk(s, b, Checking(pc), missed) && (pc.FailBroken? || pc.FailGeneration? || pc.Complete? || pc.Crown?)
    ensures CallDecides(s, WriteCheck(s, p, b, pc, true), b, AfterCheck(s, b, pc, true), missed)
  {
  }

  /** A call of a check, the answer to the nested request aside. */
  lemma CheckDecides(s: State, p: Pid, b: BuildId, pc: CheckPc, missed: bool)
    requires Tables(s) && b in s.builds && CheckLocal(s, p, b, pc) && OutcomeOk(s, b, missed)
    requires ShapeOk(s, b, Checking(pc), missed) && !pc.AwaitParent?
    ensures CallDecides(s, WriteCheck(s, p, b, pc, true), b, AfterCheck(s, b, pc, true), missed)
  {
    assert LifeOk(s, b);
    match pc
    case CheckBuild(_) =>
    case CheckFiles(_, _) =>
    case Claim(depth) => ClaimDecides(s, p, b, depth, missed);
    case AskParent(_) =>
    case _ => EndDecides(s, p, b, pc, missed);
  }

  lemma AnswerDecides(s: State, p: Pid, b: BuildId, depth: nat, helper: Pid, missed: bool)
    requires Tables(s) && b in s.builds && CheckLocal(s, p, b, AwaitParent(depth, helper)) && OutcomeOk(s, b, missed)
    requires ShapeOk(s, b, Checking(AwaitParent(depth, helper)), missed)
    ensures var missed' := missed || MissesParent(s, b, Checking(AwaitParent(depth, helper)));
            OutcomeOk(s, b, missed') && ShapeOk(s, b, AfterAwait(s, b, depth, helper), missed')
  {
    assert LifeOk(s, b);
  }

  /** The reads of a generation fail for want of the parent's archive or because
      the patch does not match or apply, and for no other reason. */
  lemma ReadFailsOnData(s: State, b: BuildId, pc: ReplayPc)
    requires Tables(s) && LostStored(s) && b in s.builds && FilesReady(s.files, b) && b !in s.arch
    requires ReplayLocal(s, b, pc) && OwnLink(s, b, pc) && !pc.Put? && !pc.Save?
    requires ReadStep(s, pc, true).None?
    ensures MissesParent(s, b, Replaying(Generate(1), pc)) || !LinkChecked(s.builds, s.files, b)
  {
    assert BuildOk(s, b);
    forall key | key in s.objects ensures s.objects[key].format == key.format { assert ObjectOk(s, key); }
    if pc.Base? { assert LifeOk(s, pc.base); }
  }

  lemma ReadKeepsShape(s: State, b: BuildId, pc: ReplayPc)
    requires OwnLink(s, b, pc) && ReadStep(s, pc, true).Some?
    ensures OwnLink(s, b, ReadStep(s, pc, true).value)
  {
  }

  lemma GenerateDecides(s: State, p: Pid, b: BuildId, job: Job, pc: ReplayPc, pick: Format, missed: bool)
    requires Tables(s) && LostStored(s) && b in s.builds && OutcomeOk(s, b, missed)
    requires JobOk(s, p, b, job) && job.Generate? && ReplayLocal(s, b, pc) && ShapeOk(s, b, Replaying(job, pc), missed)
    ensures var s', next := WriteReplay(s, b, job, pc, true, pick), AfterReplay(s, b, job, pc, true, pick);
            var missed' := missed || MissesParent(s, b, Replaying(job, pc));
            s'.builds == s.builds && s'.files == s.files && s'.status == s.status
            && OutcomeOk(s', b, missed') && ShapeOk(s', b, next, missed')
  {
    assert LifeOk(s, b);
    if !pc.Put? && !pc.Save? {
      if ReadStep(s, pc, true).None? { ReadFailsOnData(s, b, pc); } else { ReadKeepsShape(s, b, pc); }
    }
  }

  predicate MissesNow(s: State, p: Pid, b: BuildId) {
    p in s.procs && s.procs[p].build == b && MissesParent(s, b, s.procs[p].at)
  }

  lemma CheckCallDecides(s: State, p: Pid, b: BuildId, pc: CheckPc, missed: bool)
    requires Tables(s) && b in s.builds && CheckLocal(s, p, b, pc) && OutcomeOk(s, b, missed)
    requires ShapeOk(s, b, Checking(pc), missed)
    ensures CallDecides(s, WriteCheck(s, p, b, pc, true), b, AfterCheck(s, b, pc, true),
                        missed || MissesParent(s, b, Checking(pc)))
  {
    if pc.AwaitParent? { AnswerDecides(s, p, b, pc.depth, pc.helper, missed); }
    else { CheckDecides(s, p, b, pc, missed); }
  }

  lemma WorkDecides(s: State, p: Pid, pick: Format, b: BuildId, missed: bool)
    requires Inv(s) && LostStored(s) && WorksOn(s, p, b) && b in s.builds && Decided(s, b, missed)
    ensures CallDecides(s, Write(s, p, true, pick), b, After(s, p, true, pick), missed || MissesNow(s, p, b))
  {
    var at := s.procs[p].at;
    assert LocalOk(s, p, b, at) by { assert ProcOk(s, p, s.procs[p]); }
    if at.Checking? { CheckCallDecides(s, p, b, at.checkPc, missed); }
    else { GenerateDecides(s, p, b, at.job, at.replayPc, pick, missed); }
  }

  /** Only one process generates a build, so none other is replaying when it misses
      the parent. */
  lemma OnlyOneGenerates(s: State, p: Pid, q: Pid, b: BuildId)
    requires Procs(s) && WorksOn(s, p, b) && WorksOn(s, q, b) && MissesNow(s, p, b) && q != p
    ensures !s.procs[q].at.Replaying? && !WaitsForRequest(s.procs[q].at)
  {
    assert ProcOk(s, p, s.procs[p]) && ProcOk(s, q, s.procs[q]);
  }

  /** Other calls touch neither the build's state nor whether its row exists. */
  lemma OthersLeaveBuild(s: State, p: Pid, ok: bool, pick: Format, b: BuildId)
    requires Inv(s) && p in s.procs && !WorksOn(s, p, b)
    ensures var s' := Write(s, p, ok, pick);
            && (b in s'.status <==> b in s.status) && (b in s.status ==> s'.status[b] == s.status[b])
            && (b in s'.arch <==> b in s.arch)
            && (b in s.log.claimant ==> b in s'.log.claimant)
  {
    var s', at, own := Write(s, p, ok, pick), s.procs[p].at, s.procs[p].build;
    assert Effect(s, s', at, own) by { WriteEffect(s, p, ok, pick); }
    if WritesRow(at) && own == b { WritersFindRow(s, p, b); }
    EffectElsewhere(s, s', at, own, b);
  }

  lemma EffectElsewhere(s: State, s': State, at: Pc, own: BuildId, b: BuildId)
    requires Effect(s, s', at, own) && (own == b ==> !Working(at)) && (WritesRow(at) && own == b ==> b in s.arch)
    ensures (b in s'.status <==> b in s.status) && (b in s.status ==> s'.status[b] == s.status[b])
    ensures b in s'.arch <==> b in s.arch
    ensures b in s.log.claimant ==> b in s'.log.claimant
  {
  }

  /** Only a generation writes a row that does not exist yet. */
  lemma WritersFindRow(s: State, p: Pid, b: BuildId)
    requires Inv(s) && p in s.procs && s.procs[p].build == b && WritesRow(s.procs[p].at) && !WorksOn(s, p, b)
    ensures b in s.arch
  {
    assert ProcOk(s, p, s.procs[p]);
  }

  lemma StaysIdle(s: State, p: Pid, ok: bool, pick: Format, b: BuildId)
    requires p in s.procs && s.procs[p].build == b && !WorksOn(s, p, b)
    ensures After(s, p, ok, pick).Some? ==> !Working(After(s, p, ok, pick).value)
  {
    match s.procs[p].at
    case Evicting(pc) =>
    case _ =>
  }

  lemma TablesDecide(s: State, p: Pid, ok: bool, pick: Format, b: BuildId, missed: bool)
    requires Inv(s) && LostStored(s) && Decided(s, b, missed) && p in s.procs && b in s.builds
    requires WorksOn(s, p, b) ==> ok
    ensures var s' := Write(s, p, ok, pick);
            && s'.builds == s.builds && s'.files == s.files && b in s'.status
            && OutcomeOk(s', b, missed || MissesNow(s, p, b))
  {
    WriteFrame(s, p, ok, pick);
    if WorksOn(s, p, b) { WorkDecides(s, p, pick, b, missed); } else { OthersLeaveBuild(s, p, ok, pick, b); }
  }

  lemma OwnShape(s: State, p: Pid, ok: bool, pick: Format, b: BuildId, missed: bool)
    requires Inv(s) && LostStored(s) && Decided(s, b, missed) && p in s.procs && b in s.builds && s.procs[p].build == b
    requires (WorksOn(s, p, b) ==> ok) && After(s, p, ok, pick).Some?
    ensures ShapeOk(Write(s, p, ok, pick), b, After(s, p, ok, pick).value, missed || MissesNow(s, p, b))
  {
    if WorksOn(s, p, b) { WorkDecides(s, p, pick, b, missed); } else { StaysIdle(s, p, ok, pick, b); }
  }

  lemma StepDecides(s: State, p: Pid, ok: bool, pick: Format, b: BuildId, missed: bool)
    requires Inv(s) && LostStored(s) && Decided(s, b, missed) && p in s.procs && b in s.builds
    requires WorksOn(s, p, b) ==> ok
    ensures Decided(Act(s, p, ok, pick), b, missed || MissesNow(s, p, b))
  {
    var s', missed' := Act(s, p, ok, pick), missed || MissesNow(s, p, b);
    ActIsWrite(s, p, ok, pick);
    TablesDecide(s, p, ok, pick, b, missed);
    forall q | q in s'.procs && s'.procs[q].build == b ensures ShapeOk(s', b, s'.procs[q].at, missed') {
      if q == p {
        OwnMove(s, p, ok, pick);
        OwnShape(s, p, ok, pick, b, missed);
      } else if MissesNow(s, p, b) && WorksOn(s, q, b) {
        OnlyOneGenerates(s, p, q, b);
      }
    }
  }

  // ---------- other events ----------

  /** Whether a build with both files matches its parent never changes. */
  lemma LinkIsDecided(s: State, s': State, b: BuildId)
    requires Lineage(s) && Life(s) && b in s.builds && FilesReady(s.files, b)
    requires Grows(s.builds, s.files, s'.builds, s'.files)
    ensures FilesReady(s'.files, b)
    ensures LinkChecked(s'.builds, s'.files, b) <==> LinkChecked(s.builds, s.files, b)
  {
    assert BuildOk(s, b);
    if LinkChecked(s.builds, s.files, b) { LinkSurvivesGrowth(s.builds, s.files, s'.builds, s'.files, b); }
    if s.builds[b].parent.Some? {
      var parent := s.builds[b].parent.value;
      assert LifeOk(s, parent);
      FoldSurvivesGrowth(s.builds, s.files, s'.builds, s'.files, parent);
    }
    assert Before(s'.builds, s'.files, b) == Before(s.builds, s.files, b);
    assert Fold(s'.builds, s'.files, b) == Fold(s.builds, s.files, b);
  }

  lemma SetGrows(s: State, b: BuildId, files: Files)
    requires b in s.files
    requires IsFinal(s.files[b].patch) ==> files.patch == s.files[b].patch
    requires IsFinal(s.files[b].signature) ==> files.signature == s.files[b].signature
    ensures Grows(s.builds, s.files, s.builds, s.files[b := files])
  {
  }

  lemma EventGrows(s: State, e: Event)
    requires Lineage(s) && Enabled(s, e) && !e.Step?
    ensures Grows(s.builds, s.files, Do(s, e).builds, Do(s, e).files)
  {
    match e
    case InsertBuild(p, b) => InsertBuildGrowth(s, Do(s, e), p, b);
    case OpenPatch(b) => SetGrows(s, b, s.files[b].(patch := Uploading));
    case OpenSignature(b) => SetGrows(s, b, s.files[b].(signature := Uploading));
    case FinalizePatch(_, b, patch, size) => SetGrows(s, b, s.files[b].(patch := Ready(patch, size)));
    case FinalizeSignature(_, b, signature, size) => SetGrows(s, b, s.files[b].(signature := Ready(signature, size)));
    case FinalizeBrokenPatch(_, b) => SetGrows(s, b, s.files[b].(patch := Broken));
    case FinalizeBrokenSignature(_, b) => SetGrows(s, b, s.files[b].(signature := Broken));
    case _ =>
  }

  /** The files of an existing build after an event that is no step. */
  lemma EventFiles(s: State, e: Event, b: BuildId)
    requires Lineage(s) && b in s.builds && Sound(s.files[b]) && Enabled(s, e) && Smooth(s, e, b) && !e.Step?
    ensures var s' := Do(s, e);
            && b in s'.builds && s'.builds[b] == s.builds[b] && b in s'.files && b in s'.status
            && Sound(s'.files[b]) && s'.status[b] == s.status[b]
  {
    if e.InsertBuild? { InsertBuildGrowth(s, Do(s, e), e.pid, e.build); } else { OtherEffect(s, e); }
    FilesStaySound(s, e, b);
  }

  lemma FilesStaySound(s: State, e: Event, b: BuildId)
    requires b in s.files && Sound(s.files[b]) && Enabled(s, e) && Smooth(s, e, b) && !e.Step?
    ensures b in Do(s, e).files && (e.InsertBuild? || Sound(Do(s, e).files[b]))
  {
  }

  lemma OtherOutcome(s: State, e: Event, b: BuildId, missed: bool)
    requires Inv(s) && Decided(s, b, missed) && b in s.builds && Enabled(s, e) && Smooth(s, e, b) && !e.Step?
    ensures var s' := Do(s, e); b in s'.builds && b in s'.files && b in s'.status && OutcomeOk(s', b, missed)
  {
    OtherEffect(s, e);
    EventFiles(s, e, b);
    EventGrows(s, e);
    if FilesReady(s.files, b) { LinkIsDecided(s, Do(s, e), b); }
  }

  lemma OtherShape(s: State, e: Event, b: BuildId, missed: bool, p: Pid)
    requires Inv(s) && Decided(s, b, missed) && b in s.builds && Enabled(s, e) && !e.Step?
    requires p in Do(s, e).procs && Do(s, e).procs[p].build == b
    ensures ShapeOk(Do(s, e), b, Do(s, e).procs[p].at, missed)
  {
    OtherEffect(s, e);
    EventGrows(s, e);
    SameShape(s, Do(s, e), b, missed, p);
  }

  lemma SameShape(s: State, s': State, b: BuildId, missed: bool, p: Pid)
    requires Inv(s) && Decided(s, b, missed) && b in s.builds && p in s'.procs && s'.procs[p].build == b
    requires Grows(s.builds, s.files, s'.builds, s'.files)
    requires (p in s.procs && s'.procs[p] == s.procs[p]) || FirstCall(s'.procs[p].at)
             || (AsksParent(s, p) && s.procs[p].build == b && WaitsForRequest(s'.procs[p].at))
    ensures ShapeOk(s', b, s'.procs[p].at, missed)
  {
    if s'.procs[p].at == Checking(FailGeneration) {
      FailingHasFiles(s, p, b);
      LinkIsDecided(s, s', b);
    }
  }

  lemma FailingHasFiles(s: State, p: Pid, b: BuildId)
    requires Inv(s) && p in s.procs && s.procs[p] == Proc(b, Checking(FailGeneration)) && b in s.builds
    ensures FilesReady(s.files, b)
  {
    assert ProcOk(s, p, s.procs[p]) && LifeOk(s, b);
  }

  lemma OtherDecides(s: State, e: Event, b: BuildId, missed: bool)
    requires Inv(s) && Decided(s, b, missed) && b in s.builds && Enabled(s, e) && Smooth(s, e, b) && !e.Step?
    ensures Decided(Do(s, e), b, missed)
  {
    var s' := Do(s, e);
    OtherOutcome(s, e, b, missed);
    forall p | p in s'.procs && s'.procs[p].build == b ensures ShapeOk(s', b, s'.procs[p].at, missed) {
      OtherShape(s, e, b, missed, p);
    }
  }

  /** A new build starts out with no file. */
  lemma InsertDecides(s: State, p: Pid, b: BuildId)
    requires Inv(s) && Enabled(s, InsertBuild(p, b))
    ensures Decided(Do(s, InsertBuild(p, b)), b, false)
  {
    forall q | q in s.procs && s.procs[q].build == b
      ensures s.procs[q].at != Checking(FailGeneration) && !(s.procs[q].at.Replaying? && s.procs[q].at.job.Generate?)
    {
      assert ProcOk(s, q, s.procs[q]);
    }
  }

  lemma UnknownDecides(s: State, e: Event, b: BuildId)
    requires Inv(s) && b !in s.builds && Enabled(s, e) && (e.InsertBuild? ==> e.build != b)
    ensures Decided(Do(s, e), b, false) && !Misses(s, e, b)
  {
    if e.Step? {
      ActIsWrite(s, e.pid, e.ok, e.pick);
      WriteFrame(s, e.pid, e.ok, e.pick);
      assert ProcOk(s, e.pid, s.procs[e.pid]);
    }
  }

  lemma EventDecides(s: State, e: Event, b: BuildId, missed: bool)
    requires Inv(s) && LostStored(s) && Decided(s, b, missed) && Enabled(s, e) && Smooth(s, e, b)
    ensures Decided(Do(s, e), b, missed || Misses(s, e, b))
  {
    if b !in s.builds {
      if e.InsertBuild? && e.build == b { InsertDecides(s, e.pid, b); } else { UnknownDecides(s, e, b); }
    } else if e.Step? {
      StepDecides(s, e.pid, e.ok, e.pick, b, missed);
    } else {
      OtherDecides(s, e, b, missed);
    }
  }

  lemma EventKeepsLost(s: State, e: Event)
    requires LostStored(s) && Enabled(s, e)
    ensures LostStored(Do(s, e))
  {
    if e.Step? {
      ActIsWrite(s, e.pid, e.ok, e.pick);
      WriteFrame(s, e.pid, e.ok, e.pick);
      WriteRow(s, e.pid, e.ok, e.pick);
    } else {
      OtherEffect(s, e);
    }
  }

  lemma NextDecides(states: seq<State>, events: seq<Event>, i: nat, b: BuildId, missed: bool)
    requires SmoothRun(states, events, b) && i < |events| && LostStored(states[i]) && Decided(states[i], b, missed)
    ensures LostStored(states[i + 1]) && Decided(states[i + 1], b, missed || Misses(states[i], events[i], b))
  {
    RunKeeps(states, events, i);
    assert TransitionAt(states, events, i) && SmoothEvents(b)(states[i], events[i]);
    EventDecides(states[i], events[i], b, missed);
    EventKeepsLost(states[i], events[i]);
  }

  lemma {:induction false} SmoothRunDecides(states: seq<State>, events: seq<Event>, n: nat, b: BuildId)
    requires SmoothRun(states, events, b) && n < |states|
    ensures LostStored(states[n]) && Decided(states[n], b, Missed(states, events, n, b))
  {
    if n > 0 {
      SmoothRunDecides(states, events, n - 1, b);
      NextDecides(states, events, n - 1, b, Missed(states, events, n - 1, b));
    }
  }

  // ---------- some call is always to come ----------

  /** A call that takes the build further. */
  predicate Drives(status: BuildState, stored: bool, at: Pc) {
    match status
    case Started =>
      at == Checking(CheckBuild(1)) || at == Checking(CheckFiles(1, Started)) || at == Checking(Claim(1))
    case Processing =>
      if stored then at.Checking? && (at.checkPc.CheckBuild? || at.checkPc.CheckFiles? || at.checkPc.Complete?)
      else (at.Replaying? && at.job.Generate?) || WaitsForRequest(at) || at == Checking(FailGeneration)
    case _ => false
  }

  ghost predicate Driver(s: State, b: BuildId, p: Pid)
    requires b in s.status
  {
    p in s.procs && s.procs[p].build == b && Drives(s.status[b], b in s.arch, s.procs[p].at)
  }

  predicate Over(status: BuildState) { status == Completed || status == Failed }

  ghost predicate Driven(s: State, b: BuildId) {
    b in s.status && FilesReady(s.files, b) ==> Over(s.status[b]) || exists p :: Driver(s, b, p)
  }

  /** How a working process hands on: the outcome is there, or the process goes on
      driving the build, or it was not needed. */
  ghost predicate HandsOn(s: State, s': State, b: BuildId, at: Pc, next: Option<Pc>)
    requires b in s.status && b in s'.status
  {
    || Over(s'.status[b])
    || (next.Some? && Drives(s'.status[b], b in s'.arch, next.value))
    || (s'.status[b] == s.status[b] && (b in s'.arch <==> b in s.arch)
        && !(FilesReady(s.files, b) && Drives(s.status[b], b in s.arch, at)))
  }

  lemma CheckHandsOn(s: State, p: Pid, b: BuildId, pc: CheckPc)
    requires KnownBuild(s, b) && LifeOk(s, b) && CheckLocal(s, p, b, pc) && Sound(s.files[b])
    ensures b in WriteCheck(s, p, b, pc, true).status
    ensures HandsOn(s, WriteCheck(s, p, b, pc, true), b, Checking(pc), AfterCheck(s, b, pc, true))
  {
  }

  lemma GenerateHandsOn(s: State, b: BuildId, job: Job, pc: ReplayPc, pick: Format)
    requires b in s.status && job.Generate? && s.status[b] == Processing && b !in s.arch
    ensures HandsOn(s, WriteReplay(s, b, job, pc, true, pick), b, Replaying(job, pc),
                    Some(AfterReplay(s, b, job, pc, true, pick)))
  {
  }

  lemma WorkHandsOn(s: State, p: Pid, pick: Format, b: BuildId)
    requires Inv(s) && WorksOn(s, p, b) && b in s.builds && Sound(s.files[b])
    ensures var s' := Write(s, p, true, pick);
            b in s.status && b in s'.status && HandsOn(s, s', b, s.procs[p].at, After(s, p, true, pick))
  {
    var at := s.procs[p].at;
    assert LocalOk(s, p, b, at) by { assert ProcOk(s, p, s.procs[p]); }
    if at.Checking? { CheckHandsOn(s, p, b, at.checkPc) by { assert LifeOk(s, b); } }
    else { GenerateHandsOn(s, b, at.job, at.replayPc, pick); }
  }

  /** A driver other than p goes on; p itself hands on. */
  lemma DriverStays(s: State, s': State, p: Pid, next: Option<Pc>, b: BuildId)
    requires p in s.procs && b in s.status && b in s'.status && Driven(s, b) && s'.files == s.files
    requires forall q | q in s.procs && q != p :: q in s'.procs && s'.procs[q] == s.procs[q]
    requires next.Some? ==> p in s'.procs && s'.procs[p] == Proc(s.procs[p].build, next.value)
    requires if WorksOn(s, p, b) then HandsOn(s, s', b, s.procs[p].at, next)
             else s'.status[b] == s.status[b] && (b in s'.arch <==> b in s.arch)
    ensures Driven(s', b)
  {
    if FilesReady(s.files, b) && !Over(s'.status[b]) {
      if WorksOn(s, p, b) && next.Some? && Drives(s'.status[b], b in s'.arch, next.value) {
        assert Driver(s', b, p);
      } else {
        var q :| Driver(s, b, q);
        assert Driver(s', b, q);
      }
    }
  }

  lemma StepDrives(s: State, p: Pid, ok: bool, pick: Format, b: BuildId)
    requires Inv(s) && Driven(s, b) && p in s.procs && b in s.builds && Sound(s.files[b]) && (WorksOn(s, p, b) ==> ok)
    ensures Driven(Act(s, p, ok, pick), b)
  {
    var s' := Act(s, p, ok, pick);
    ActIsWrite(s, p, ok, pick);
    WriteFrame(s, p, ok, pick);
    if p in s'.procs { OwnMove(s, p, ok, pick); }
    if WorksOn(s, p, b) { WorkHandsOn(s, p, pick, b); } else { OthersLeaveBuild(s, p, ok, pick, b); }
    DriverStays(s, s', p, After(s, p, ok, pick), b);
  }

  /** Finalizing starts a check, which drives a build that is still started. */
  lemma FinalizeDrives(s: State, e: Event, b: BuildId)
    requires KnownBuild(s, b) && LifeOk(s, b) && (s.status[b] == Failed ==> FilesReady(s.files, b)) && Driven(s, b)
    requires Enabled(s, e) && (e.FinalizePatch? || e.FinalizeSignature?)
    ensures Driven(Do(s, e), b)
  {
    var s' := Do(s, e);
    if FilesReady(s'.files, b) && !Over(s.status[b]) {
      if e.build == b {
        assert Driver(s', b, e.pid);
      } else {
        var p :| Driver(s, b, p);
        assert Driver(s', b, p);
      }
    }
  }

  lemma OtherSpares(s: State, e: Event, b: BuildId, p: Pid)
    requires Enabled(s, e) && !e.Step? && Smooth(s, e, b) && WorksOn(s, p, b)
    ensures p in Do(s, e).procs && (Do(s, e).procs[p] == s.procs[p] || BeginsToWait(s, Do(s, e), e, p))
  {
  }

  lemma FilesStay(s: State, e: Event, b: BuildId)
    requires Enabled(s, e) && Smooth(s, e, b) && !e.Step? && !e.FinalizePatch? && !e.FinalizeSignature?
    requires b in s.files && b in s.status && b in s.builds
    ensures FilesReady(Do(s, e).files, b) ==> FilesReady(s.files, b)
    ensures b in Do(s, e).status && Do(s, e).status[b] == s.status[b]
  {
  }

  lemma OtherDrives(s: State, e: Event, b: BuildId)
    requires Lineage(s) && b in s.builds && Driven(s, b) && Enabled(s, e) && Smooth(s, e, b)
    requires !e.Step? && !e.FinalizePatch? && !e.FinalizeSignature?
    ensures Driven(Do(s, e), b)
  {
    var s' := Do(s, e);
    FilesStay(s, e, b);
    OtherEffect(s, e);
    if FilesReady(s'.files, b) && !Over(s'.status[b]) {
      var p :| Driver(s, b, p);
      OtherSpares(s, e, b, p);
      assert Driver(s', b, p);
    }
  }

  lemma UnknownDrives(s: State, e: Event, b: BuildId)
    requires Lineage(s) && b !in s.builds && Enabled(s, e)
    ensures Driven(Do(s, e), b)
  {
    if e.Step? {
      ActIsWrite(s, e.pid, e.ok, e.pick);
      WriteFrame(s, e.pid, e.ok, e.pick);
    }
  }

  lemma EventDrives(s: State, e: Event, b: BuildId, missed: bool)
    requires Inv(s) && Decided(s, b, missed) && Driven(s, b) && Enabled(s, e) && Smooth(s, e, b)
    ensures Driven(Do(s, e), b)
  {
    if b !in s.builds {
      UnknownDrives(s, e, b);
    } else if e.Step? {
      StepDrives(s, e.pid, e.ok, e.pick, b);
    } else if e.FinalizePatch? || e.FinalizeSignature? {
      FinalizeDrives(s, e, b) by { assert LifeOk(s, b); }
    } else {
      OtherDrives(s, e, b);
    }
  }

  lemma NextDrives(states: seq<State>, events: seq<Event>, i: nat, b: BuildId)
    requires SmoothRun(states, events, b) && i < |events| && Driven(states[i], b)
    ensures Driven(states[i + 1], b)
  {
    RunKeeps(states, events, i);
    SmoothRunDecides(states, events, i, b);
    assert TransitionAt(states, events, i) && SmoothEvents(b)(states[i], events[i]);
    EventDrives(states[i], events[i], b, Missed(states, events, i, b));
  }

  lemma {:induction false} SmoothRunDrives(states: seq<State>, events: seq<Event>, n: nat, b: BuildId)
    requires SmoothRun(states, events, b) && n < |states|
    ensures Driven(states[n], b)
  {
    if n > 0 {
      SmoothRunDrives(states, events, n - 1, b);
      NextDrives(states, events, n - 1, b);
    }
  }

  // ---------- the result ----------

  /** The checks of b are over: it is completed, with its one archive row, or failed. */
  ghost predicate Ended(s: State, b: BuildId, well: bool) {
    b in s.status && s.log.claims[b] == 1
    && if well then s.status[b] == Completed && b in s.arch && s.log.inserts[b] == 1
       else s.status[b] == Failed && b !in s.arch && s.log.inserts[b] == 0
  }

  /** Patch and signature finalized with content, all calls successful: once no
      check of the build is left, in whatever order their calls were made, it was
      claimed once, and it is completed, with exactly one archive row inserted, if
      and only if its patch matches and applies, its nested request was answered and
      its parent's archive was still there when the generation read it. Otherwise it
      is failed, with no archive row. */
  lemma FinalizersDecide(states: seq<State>, events: seq<Event>, n: nat, b: BuildId)
    requires SmoothRun(states, events, b) && n < |states|
    requires FilesReady(states[n].files, b)
    requires forall p :: !WorksOn(states[n], p, b)
    ensures var s := states[n];
            Ended(s, b, LinkChecked(s.builds, s.files, b) && !Missed(states, events, n, b))
  {
    var s := states[n];
    RunKeeps(states, events, n);
    SmoothRunDecides(states, events, n, b);
    SmoothRunDrives(states, events, n, b);
    assert LifeOk(s, b);
    if !Over(s.status[b]) {
      var p :| Driver(s, b, p);
      assert WorksOn(s, p, b);
    }
  }

  /** So a build whose patch was made for another tree, or makes another tree than its
      signature lists, ends failed: a root's patch for a tree that is not empty too. */
  lemma MismatchFails(states: seq<State>, events: seq<Event>, n: nat, b: BuildId)
    requires SmoothRun(states, events, b) && n < |states|
    requires FilesReady(states[n].files, b) && b in states[n].builds
    requires forall p :: !WorksOn(states[n], p, b)
    requires var s := states[n];
             || s.files[b].patch.content.source != s.files[b].signature.content
             || (match s.builds[b].parent
                 case None => s.files[b].patch.content.target != map[]
                 case Some(parent) => parent in s.files && s.files[parent].signature.Ready?
                                      && s.files[b].patch.content.target != s.files[parent].signature.content)
    ensures b in states[n].status && states[n].status[b] == Failed && b !in states[n].arch
  {
    FinalizersDecide(states, events, n, b);
  }
}
