/** No completed build is ever lost: over every run all completed builds are
    available exactly as long as no warm archive whose patch object is gone is
    marked for rebuilding. */
module ServerAvailability {
  import opened Records
  import opened Trees
  import opened Server
  import opened ServerInvariant
  import opened ServerRuns
  import opened ServerEffects
  import opened ServerCaching

  /** The event marks the uploaded row of a build for rebuilding whose patch object
      is gone. */
  ghost predicate Loses(s: State, e: Event, b: BuildId) {
    RemarksWarm(s, e, b) && b in s.lost
  }

  // ---------- losing patch objects ----------

  /** A build whose patch object is gone is warm and is not being evicted. */
  ghost predicate LossOk(s: State, b: BuildId) {
    b in s.lost ==> UploadedRow(s, b)
  }

  ghost predicate GuardOk(s: State, proc: Proc) {
    PatchGuarded(proc.at) ==> proc.build !in s.lost
  }

  ghost predicate LossInv(s: State) {
    && (forall b {:trigger LossOk(s, b)} :: LossOk(s, b))
    && (forall p {:trigger GuardOk(s, s.procs[p])} | p in s.procs :: GuardOk(s, s.procs[p]))
  }

  lemma EnsureLoss(s: State, p: Pid, own: BuildId, pc: EnsurePc, ok: bool, b: BuildId)
    requires LossOk(s, b) && EnsureLocal(s, own, pc)
    requires pc.MarkRebuilding? && ok && own == b ==> b !in s.lost
    ensures LossOk(WriteEnsure(s, p, own, pc, ok), b)
  {
    EnsureEffect(s, p, own, pc, ok);
  }

  lemma ReplayLoss(s: State, own: BuildId, job: Job, pc: ReplayPc, ok: bool, pick: Format, b: BuildId)
    requires LossOk(s, b)
    ensures LossOk(WriteReplay(s, own, job, pc, ok, pick), b)
  {
    ReplayEffect(s, own, job, pc, ok, pick);
  }

  lemma EvictLoss(s: State, p: Pid, own: BuildId, pc: EvictPc, ok: bool, b: BuildId)
    requires LossOk(s, b) && EvictLocal(s, own, pc)
    requires pc.EvictMark? ==> own !in s.lost
    ensures LossOk(WriteEvict(s, p, own, pc, ok), b)
  {
    EvictEffect(s, p, own, pc, ok);
  }

  lemma EnsureWriteLoss(s: State, p: Pid, ok: bool, pick: Format, b: BuildId)
    requires Procs(s) && p in s.procs && s.procs[p].at.Ensuring? && LossOk(s, b) && !Loses(s, Step(p, ok, pick), b)
    ensures LossOk(Write(s, p, ok, pick), b)
  {
    assert EnsureLocal(s, s.procs[p].build, s.procs[p].at.ensurePc) by { assert ProcOk(s, p, s.procs[p]); }
    EnsureLoss(s, p, s.procs[p].build, s.procs[p].at.ensurePc, ok, b);
  }

  lemma EvictWriteLoss(s: State, p: Pid, ok: bool, pick: Format, b: BuildId)
    requires Procs(s) && p in s.procs && s.procs[p].at.Evicting? && GuardOk(s, s.procs[p]) && LossOk(s, b)
    ensures LossOk(Write(s, p, ok, pick), b)
  {
    assert EvictLocal(s, s.procs[p].build, s.procs[p].at.evictPc) by { assert ProcOk(s, p, s.procs[p]); }
    EvictLoss(s, p, s.procs[p].build, s.procs[p].at.evictPc, ok, b);
  }

  lemma OtherWriteLoss(s: State, p: Pid, ok: bool, pick: Format, b: BuildId)
    requires p in s.procs && !s.procs[p].at.Ensuring? && !s.procs[p].at.Evicting? && LossOk(s, b)
    ensures LossOk(Write(s, p, ok, pick), b)
  {
    if s.procs[p].at.Replaying? { ReplayWriteLoss(s, p, ok, pick, b); } else { WriteEffect(s, p, ok, pick); }
  }

  lemma ReplayWriteLoss(s: State, p: Pid, ok: bool, pick: Format, b: BuildId)
    requires p in s.procs && s.procs[p].at.Replaying? && LossOk(s, b)
    ensures LossOk(Write(s, p, ok, pick), b)
  {
    ReplayLoss(s, s.procs[p].build, s.procs[p].at.job, s.procs[p].at.replayPc, ok, pick, b);
  }

  lemma WriteLoss(s: State, p: Pid, ok: bool, pick: Format, b: BuildId)
    requires Procs(s) && p in s.procs && GuardOk(s, s.procs[p]) && LossOk(s, b) && !Loses(s, Step(p, ok, pick), b)
    ensures LossOk(Write(s, p, ok, pick), b)
  {
    if s.procs[p].at.Ensuring? { EnsureWriteLoss(s, p, ok, pick, b); }
    else if s.procs[p].at.Evicting? { EvictWriteLoss(s, p, ok, pick, b); }
    else { OtherWriteLoss(s, p, ok, pick, b); }
  }

  lemma StepStaysGuarded(s: State, p: Pid, ok: bool, pick: Format)
    requires p in s.procs && GuardOk(s, s.procs[p]) && After(s, p, ok, pick).Some?
    ensures GuardOk(s, Proc(s.procs[p].build, After(s, p, ok, pick).value))
  {
    match s.procs[p].at
    case Evicting(pc) =>
    case _ =>
  }

  lemma StepKeepsLoss(s: State, p: Pid, ok: bool, pick: Format)
    requires Procs(s) && LossInv(s) && p in s.procs
    requires forall b: BuildId :: !Loses(s, Step(p, ok, pick), b)
    ensures LossInv(Act(s, p, ok, pick))
  {
    var s' := Act(s, p, ok, pick);
    ActIsWrite(s, p, ok, pick);
    WriteFrame(s, p, ok, pick);
    forall b ensures LossOk(s', b) {
      assert LossOk(s, b) && GuardOk(s, s.procs[p]);
      WriteLoss(s, p, ok, pick, b);
    }
    forall q | q in s'.procs ensures GuardOk(s', s'.procs[q]) {
      assert GuardOk(s, s.procs[q]);
      if q == p { StepStaysGuarded(s, p, ok, pick); OwnMove(s, p, ok, pick); }
    }
  }

  lemma LosePatchKeepsLoss(s: State, b: BuildId)
    requires LossInv(s) && Enabled(s, LosePatch(b))
    ensures LossInv(Do(s, LosePatch(b)))
  {
    var s' := Do(s, LosePatch(b));
    forall x ensures LossOk(s', x) { assert LossOk(s, x); }
    forall p | p in s'.procs ensures GuardOk(s', s'.procs[p]) { assert GuardOk(s, s.procs[p]); }
  }

  lemma OtherKeepsLoss(s: State, e: Event)
    requires LossInv(s) && Enabled(s, e) && !e.Step? && !e.LosePatch?
    ensures LossInv(Do(s, e))
  {
    var s' := Do(s, e);
    OtherEffect(s, e);
    forall b ensures LossOk(s', b) { assert LossOk(s, b); }
    forall p | p in s'.procs ensures GuardOk(s', s'.procs[p]) {
      if p in s.procs && s'.procs[p] == s.procs[p] { assert GuardOk(s, s.procs[p]); }
    }
  }

  lemma EventKeepsLoss(s: State, e: Event)
    requires Inv(s) && LossInv(s) && Enabled(s, e) && forall b: BuildId :: !Loses(s, e, b)
    ensures LossInv(Do(s, e))
  {
    if e.Step? {
      StepKeepsLoss(s, e.pid, e.ok, e.pick);
    } else if e.LosePatch? {
      LosePatchKeepsLoss(s, e.build);
    } else {
      OtherKeepsLoss(s, e);
    }
  }

  lemma NextKeepsLoss(states: seq<State>, events: seq<Event>, i: nat)
    requires IsRun(states, events) && i < |events| && LossInv(states[i])
    requires forall b: BuildId :: !Loses(states[i], events[i], b)
    ensures LossInv(states[i + 1])
  {
    RunKeeps(states, events, i);
    assert TransitionAt(states, events, i);
    EventKeepsLoss(states[i], events[i]);
  }

  /** Nothing has been lost for good in the first n events. */
  ghost predicate NothingLost(states: seq<State>, events: seq<Event>, n: nat)
    requires n <= |events| < |states|
  {
    forall i: nat, b: BuildId | i < n :: !Loses(states[i], events[i], b)
  }

  lemma {:induction false} RunKeepsLoss(states: seq<State>, events: seq<Event>, n: nat)
    requires IsRun(states, events) && n < |states| && NothingLost(states, events, n)
    ensures LossInv(states[n])
  {
    if n > 0 {
      RunKeepsLoss(states, events, n - 1);
      NextKeepsLoss(states, events, n - 1);
    }
  }

  // ---------- availability ----------

  /** The build's own link is stored and so is the way to its nearest warm
      ancestor or to the root. */
  ghost predicate Replayable(s: State, b: BuildId)
    decreases b
  {
    && b in s.builds
    && PatchStored(s, b)
    && LinkChecked(s.builds, s.files, b)
    && match s.builds[b].parent
       case None => true
       case Some(parent) =>
         && parent < b && parent in s.files && s.files[parent].signature.Ready?
         && (Warm(s, parent) || Replayable(s, parent))
  }

  ghost predicate Available(s: State, b: BuildId) {
    Warm(s, b) || Replayable(s, b)
  }

  lemma {:induction false} CompletedIsAvailable(s: State, b: BuildId)
    requires Tables(s) && LossInv(s) && b in s.log.completed
    ensures Available(s, b)
    decreases b
  {
    assert LifeOk(s, b) && RowOk(s, b) && LossOk(s, b) && BuildOk(s, b);
    if s.builds[b].parent.Some? {
      var parent := s.builds[b].parent.value;
      assert LifeOk(s, parent);
      CompletedIsAvailable(s, parent);
    }
  }

  // ---------- a loss is for good ----------

  /** The replay has read the patch of the build it rebuilds. */
  predicate PastPatch(at: Pc) {
    at.Replaying? &&
    match at.replayPc
    case Put(_) => true
    case Save(_) => true
    case Link(chain, index, _, _, phase) => index + 1 == |chain| && phase.SignatureGet?
    case _ => false
  }

  /** The patch is gone, the archive is cold, and no replay can make it warm. */
  ghost predicate Doomed(s: State, b: BuildId) {
    && b in s.lost && b in s.log.completed && NotUploaded(s, b)
    && forall p | p in s.procs && s.procs[p].build == b :: !PastPatch(s.procs[p].at)
  }

  lemma ReadStaysBehind(s: State, b: BuildId, job: Job, pc: ReplayPc, ok: bool)
    requires b in s.lost && ReplayLocal(s, b, pc) && !PastPatch(Replaying(job, pc))
    ensures ReadStep(s, pc, ok).Some? ==> !PastPatch(Replaying(job, ReadStep(s, pc, ok).value))
  {
  }

  lemma StepStaysBehind(s: State, p: Pid, ok: bool, pick: Format)
    requires Procs(s) && p in s.procs && s.procs[p].build in s.lost && !PastPatch(s.procs[p].at)
    requires s.procs[p].build in s.arch && After(s, p, ok, pick).Some?
    ensures !PastPatch(After(s, p, ok, pick).value)
  {
    var b := s.procs[p].build;
    match s.procs[p].at
    case Replaying(job, pc) =>
      assert ReplayLocal(s, b, pc) by { assert ProcOk(s, p, s.procs[p]); }
      ReadStaysBehind(s, b, job, pc, ok);
    case _ =>
  }

  lemma EnsureStaysCold(s: State, p: Pid, own: BuildId, pc: EnsurePc, ok: bool, b: BuildId)
    requires NotUploaded(s, b) && EnsureLocal(s, own, pc)
    ensures NotUploaded(WriteEnsure(s, p, own, pc, ok), b)
  {
    EnsureEffect(s, p, own, pc, ok);
  }

  lemma EvictStaysCold(s: State, p: Pid, own: BuildId, pc: EvictPc, ok: bool, b: BuildId)
    requires NotUploaded(s, b) && EvictLocal(s, own, pc)
    ensures NotUploaded(WriteEvict(s, p, own, pc, ok), b)
  {
    EvictEffect(s, p, own, pc, ok);
  }

  lemma EnsureWriteStaysCold(s: State, p: Pid, ok: bool, pick: Format, b: BuildId)
    requires Procs(s) && p in s.procs && s.procs[p].at.Ensuring? && NotUploaded(s, b)
    ensures NotUploaded(Write(s, p, ok, pick), b)
  {
    assert EnsureLocal(s, s.procs[p].build, s.procs[p].at.ensurePc) by { assert ProcOk(s, p, s.procs[p]); }
    EnsureStaysCold(s, p, s.procs[p].build, s.procs[p].at.ensurePc, ok, b);
  }

  lemma EvictWriteStaysCold(s: State, p: Pid, ok: bool, pick: Format, b: BuildId)
    requires Procs(s) && p in s.procs && s.procs[p].at.Evicting? && NotUploaded(s, b)
    ensures NotUploaded(Write(s, p, ok, pick), b)
  {
    assert EvictLocal(s, s.procs[p].build, s.procs[p].at.evictPc) by { assert ProcOk(s, p, s.procs[p]); }
    EvictStaysCold(s, p, s.procs[p].build, s.procs[p].at.evictPc, ok, b);
  }

  lemma OtherWriteStaysCold(s: State, p: Pid, ok: bool, pick: Format, b: BuildId)
    requires p in s.procs && !s.procs[p].at.Ensuring? && !s.procs[p].at.Evicting? && NotUploaded(s, b)
    requires s.procs[p].build == b ==> !PastPatch(s.procs[p].at)
    ensures NotUploaded(Write(s, p, ok, pick), b)
  {
    WriteRow(s, p, ok, pick);
  }

  lemma StepStaysCold(s: State, p: Pid, ok: bool, pick: Format, b: BuildId)
    requires Procs(s) && p in s.procs && NotUploaded(s, b) && (s.procs[p].build == b ==> !PastPatch(s.procs[p].at))
    ensures NotUploaded(Write(s, p, ok, pick), b)
  {
    if s.procs[p].at.Ensuring? { EnsureWriteStaysCold(s, p, ok, pick, b); }
    else if s.procs[p].at.Evicting? { EvictWriteStaysCold(s, p, ok, pick, b); }
    else { OtherWriteStaysCold(s, p, ok, pick, b); }
  }

  lemma StepKeepsDoom(s: State, p: Pid, ok: bool, pick: Format, b: BuildId)
    requires Inv(s) && Doomed(s, b) && p in s.procs
    ensures Doomed(Act(s, p, ok, pick), b)
  {
    var s' := Act(s, p, ok, pick);
    ActIsWrite(s, p, ok, pick);
    WriteFrame(s, p, ok, pick);
    WriteLog(s, p, ok, pick);
    StepStaysCold(s, p, ok, pick, b);
    if s.procs[p].build == b && p in s'.procs {
      OwnMove(s, p, ok, pick);
      StepStaysBehind(s, p, ok, pick);
    }
    forall q | q in s'.procs && s'.procs[q].build == b ensures !PastPatch(s'.procs[q].at) {
      if q == p { OwnMove(s, p, ok, pick); }
    }
  }

  lemma OtherKeepsDoom(s: State, e: Event, b: BuildId)
    requires Doomed(s, b) && Enabled(s, e) && !e.Step?
    ensures Doomed(Do(s, e), b)
  {
    OtherEffect(s, e);
  }

  lemma NextKeepsDoom(states: seq<State>, events: seq<Event>, i: nat, b: BuildId)
    requires IsRun(states, events) && i < |events| && Doomed(states[i], b)
    ensures Doomed(states[i + 1], b)
  {
    RunKeeps(states, events, i);
    assert TransitionAt(states, events, i);
    if events[i].Step? { StepKeepsDoom(states[i], events[i].pid, events[i].ok, events[i].pick, b); }
    else { OtherKeepsDoom(states[i], events[i], b); }
  }

  lemma {:induction false} DoomIsForGood(states: seq<State>, events: seq<Event>, i: nat, n: nat, b: BuildId)
    requires IsRun(states, events) && i <= n < |states| && Doomed(states[i], b)
    ensures Doomed(states[n], b)
    decreases n
  {
    if i < n {
      DoomIsForGood(states, events, i, n - 1, b);
      NextKeepsDoom(states, events, n - 1, b);
    }
  }

  /** The mark that loses a build: its process starts over, and no other process
      of the build is replaying. */
  lemma LosingDooms(s: State, p: Pid, pick: Format, b: BuildId)
    requires Inv(s) && Enabled(s, Step(p, true, pick)) && Loses(s, Step(p, true, pick), b)
    ensures Doomed(Act(s, p, true, pick), b)
  {
    var s' := Act(s, p, true, pick);
    ActIsWrite(s, p, true, pick);
    WriteFrame(s, p, true, pick);
    assert ProcOk(s, p, s.procs[p]);
    forall q | q in s'.procs && s'.procs[q].build == b ensures !PastPatch(s'.procs[q].at) {
      if q != p { assert ProcOk(s, q, s.procs[q]); } else { OwnMove(s, p, true, pick); }
    }
  }

  lemma LossIsForGood(states: seq<State>, events: seq<Event>, i: nat, n: nat, b: BuildId)
    requires IsRun(states, events) && i < n < |states| && Loses(states[i], events[i], b)
    ensures b in states[n].log.completed && !Available(states[n], b)
  {
    RunKeeps(states, events, i);
    assert TransitionAt(states, events, i);
    LosingDooms(states[i], events[i].pid, events[i].pick, b);
    DoomIsForGood(states, events, i + 1, n, b);
  }

  /** Over every run, with every interleaving of requests, evictions, failures and
      crashes and with patch objects of warm builds being lost: all completed
      builds are available exactly when no warm archive without its patch object
      has been marked for rebuilding so far. */
  lemma CompletedBuildsAreAvailable(states: seq<State>, events: seq<Event>, n: nat)
    requires IsRun(states, events) && n < |states|
    ensures (forall b | b in states[n].log.completed :: Available(states[n], b)) <==> NothingLost(states, events, n)
  {
    if NothingLost(states, events, n) {
      RunKeeps(states, events, n);
      RunKeepsLoss(states, events, n);
      forall b | b in states[n].log.completed ensures Available(states[n], b) { CompletedIsAvailable(states[n], b); }
    } else {
      var i: nat, b: BuildId :| i < n && Loses(states[i], events[i], b);
      LossIsForGood(states, events, i, n, b);
    }
  }

  /** So in careful runs, whatever the store loses, no completed build is. */
  lemma NoCompletedBuildIsLost(states: seq<State>, events: seq<Event>, n: nat, b: BuildId)
    requires RunObeys(Careful(), states, events) && n < |states|
    requires b in states[n].status && states[n].status[b] == Completed
    ensures NothingLost(states, events, n) && Available(states[n], b)
  {
    forall i: nat, x: BuildId | i < n ensures !Loses(states[i], events[i], x) {
      CarefulRunsRemarkNothing(states, events, i, x);
    }
    RunKeeps(states, events, n);
    assert LifeOk(states[n], b);
    CompletedBuildsAreAvailable(states, events, n);
  }

  lemma EventLosesNothing(s: State, e: Event)
    requires Enabled(s, e) && !e.LosePatch?
    ensures Do(s, e).lost == s.lost
  {
    if e.Step? {
      ActIsWrite(s, e.pid, e.ok, e.pick);
      WriteFrame(s, e.pid, e.ok, e.pick);
    } else {
      OtherEffect(s, e);
    }
  }

  lemma {:induction false} StoreLosesNothing(states: seq<State>, events: seq<Event>, n: nat)
    requires IsRun(states, events) && n < |states|
    requires forall i | 0 <= i < n :: !events[i].LosePatch?
    ensures states[n].lost == {}
  {
    if n > 0 {
      StoreLosesNothing(states, events, n - 1);
      assert TransitionAt(states, events, n - 1);
      EventLosesNothing(states[n - 1], events[n - 1]);
    }
  }

  /** And while the store loses nothing, no run at all loses a completed build. */
  lemma CompletedIsAvailableInEveryRun(states: seq<State>, events: seq<Event>, n: nat, b: BuildId)
    requires IsRun(states, events) && n < |states|
    requires forall i | 0 <= i < n :: !events[i].LosePatch?
    requires b in states[n].status && states[n].status[b] == Completed
    ensures Available(states[n], b)
  {
    forall i: nat, x: BuildId | i < n ensures !Loses(states[i], events[i], x) { StoreLosesNothing(states, events, i); }
    RunKeeps(states, events, n);
    assert LifeOk(states[n], b);
    CompletedBuildsAreAvailable(states, events, n);
  }
}
