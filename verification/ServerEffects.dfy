/** What one event can change, field by field: the summaries the results about
    runs are proved from. */
module ServerEffects {
  import opened Records
  import opened Server

  /** What no call of a process changes. */
  ghost predicate SameTablesElsewhere(s: State, s': State) {
    s'.builds == s.builds && s'.files == s.files && s'.lost == s.lost && s'.pending == s.pending && s'.procs == s.procs
  }

  /** At most the row of build b differs, and rows are never dropped. */
  ghost predicate OnlyRow(s: State, s': State, b: BuildId) {
    && s.arch.Keys <= s'.arch.Keys <= s.arch.Keys + {b}
    && (forall x | x != b && x in s.arch :: s'.arch[x] == s.arch[x])
  }

  lemma EnsureEffect(s: State, p: Pid, b: BuildId, pc: EnsurePc, ok: bool)
    ensures var s' := WriteEnsure(s, p, b, pc, ok);
            && SameTablesElsewhere(s, s') && s'.objects == s.objects && s'.status == s.status && s'.heads == s.heads
            && s'.log == s.log.(inserts := s'.log.inserts)
            && (if pc.MarkRebuilding? || pc.Revert? then OnlyRow(s, s', b) else s'.arch == s.arch)
  {
  }

  lemma ReplayEffect(s: State, b: BuildId, job: Job, pc: ReplayPc, ok: bool, pick: Format)
    ensures var s' := WriteReplay(s, b, job, pc, ok, pick);
            && SameTablesElsewhere(s, s') && s'.status == s.status && s'.heads == s.heads
            && s.objects.Keys <= s'.objects.Keys
            && s'.log == s.log.(inserts := s'.log.inserts, rebuilds := s'.log.rebuilds)
            && (if pc.Save? then OnlyRow(s, s', b) else s'.arch == s.arch)
  {
  }

  lemma CheckEffect(s: State, p: Pid, b: BuildId, pc: CheckPc, ok: bool)
    ensures var s' := WriteCheck(s, p, b, pc, ok);
            && SameTablesElsewhere(s, s') && s'.objects == s.objects && s'.arch == s.arch
            && s'.log.marks == s.log.marks && s'.log.rebuilds == s.log.rebuilds
            && s.log.completed <= s'.log.completed && s.log.claimant.Keys <= s'.log.claimant.Keys
            && (s'.status == s.status ||
                (b in s.status &&
                 match pc
                 case Claim(_) => s.status[b] == Started && s'.status == s.status[b := Processing]
                 case FailBroken => s'.status == s.status[b := Failed]
                 case FailGeneration => s'.status == s.status[b := Failed]
                 case Complete => s'.status == s.status[b := Completed]
                 case _ => false))
  {
  }

  lemma EvictEffect(s: State, p: Pid, b: BuildId, pc: EvictPc, ok: bool)
    ensures var s' := WriteEvict(s, p, b, pc, ok);
            && SameTablesElsewhere(s, s') && s'.status == s.status && s'.heads == s.heads
            && s'.log == s.log.(marks := s'.log.marks)
            && (if pc.EvictMark? || pc.ClearPath? then OnlyRow(s, s', b) else s'.arch == s.arch)
            && (s'.objects == s.objects ||
                (pc.DeleteObject? && pc.row.path.Some? && s'.objects == s.objects - {pc.row.path.value}))
  {
  }

  predicate WritesRow(at: Pc) {
    match at
    case Ensuring(pc) => pc.MarkRebuilding? || pc.Revert?
    case Replaying(_, pc) => pc.Save?
    case Evicting(pc) => pc.EvictMark? || pc.ClearPath?
    case _ => false
  }

  // The same for whichever call process p makes.

  ghost predicate Effect(s: State, s': State, at: Pc, b: BuildId) {
    && SameTablesElsewhere(s, s')
    && (if WritesRow(at) then OnlyRow(s, s', b) else s'.arch == s.arch)
    && (s.objects.Keys <= s'.objects.Keys || DeletesObject(s, s', at))
    && (s'.status == s.status || MovesBuild(s, s', at, b))
    && s.log.completed <= s'.log.completed && s.log.claimant.Keys <= s'.log.claimant.Keys
  }

  ghost predicate DeletesObject(s: State, s': State, at: Pc) {
    at.Evicting? && at.evictPc.DeleteObject? && at.evictPc.row.path.Some?
    && s'.objects == s.objects - {at.evictPc.row.path.value}
  }

  ghost predicate MovesBuild(s: State, s': State, at: Pc, b: BuildId) {
    at.Checking? && b in s.status &&
    match at.checkPc
    case Claim(_) => s.status[b] == Started && s'.status == s.status[b := Processing]
    case FailBroken => s'.status == s.status[b := Failed]
    case FailGeneration => s'.status == s.status[b := Failed]
    case Complete => s'.status == s.status[b := Completed]
    case _ => false
  }

  lemma EnsureWrite(s: State, p: Pid, ok: bool, pick: Format)
    requires p in s.procs && s.procs[p].at.Ensuring?
    ensures Effect(s, Write(s, p, ok, pick), s.procs[p].at, s.procs[p].build)
  {
    EnsureEffect(s, p, s.procs[p].build, s.procs[p].at.ensurePc, ok);
  }

  lemma ReplayWrite(s: State, p: Pid, ok: bool, pick: Format)
    requires p in s.procs && s.procs[p].at.Replaying?
    ensures Effect(s, Write(s, p, ok, pick), s.procs[p].at, s.procs[p].build)
  {
    ReplayEffect(s, s.procs[p].build, s.procs[p].at.job, s.procs[p].at.replayPc, ok, pick);
  }

  lemma CheckWrite(s: State, p: Pid, ok: bool, pick: Format)
    requires p in s.procs && s.procs[p].at.Checking?
    ensures Effect(s, Write(s, p, ok, pick), s.procs[p].at, s.procs[p].build)
  {
    CheckEffect(s, p, s.procs[p].build, s.procs[p].at.checkPc, ok);
  }

  lemma EvictWrite(s: State, p: Pid, ok: bool, pick: Format)
    requires p in s.procs && s.procs[p].at.Evicting?
    ensures Effect(s, Write(s, p, ok, pick), s.procs[p].at, s.procs[p].build)
  {
    EvictEffect(s, p, s.procs[p].build, s.procs[p].at.evictPc, ok);
  }

  lemma WriteEffect(s: State, p: Pid, ok: bool, pick: Format)
    requires p in s.procs
    ensures Effect(s, Write(s, p, ok, pick), s.procs[p].at, s.procs[p].build)
  {
    match s.procs[p].at
    case Ensuring(_) => EnsureWrite(s, p, ok, pick);
    case Replaying(_, _) => ReplayWrite(s, p, ok, pick);
    case Checking(_) => CheckWrite(s, p, ok, pick);
    case Evicting(_) => EvictWrite(s, p, ok, pick);
    case _ =>
  }

  lemma WriteFrame(s: State, p: Pid, ok: bool, pick: Format)
    requires p in s.procs
    ensures SameTablesElsewhere(s, Write(s, p, ok, pick))
  {
    WriteEffect(s, p, ok, pick);
  }

  lemma WriteRow(s: State, p: Pid, ok: bool, pick: Format)
    requires p in s.procs
    ensures var s' := Write(s, p, ok, pick);
            if WritesRow(s.procs[p].at) then OnlyRow(s, s', s.procs[p].build) else s'.arch == s.arch
  {
    WriteEffect(s, p, ok, pick);
  }

  lemma WriteObjects(s: State, p: Pid, ok: bool, pick: Format)
    requires p in s.procs
    ensures s.objects.Keys <= Write(s, p, ok, pick).objects.Keys || DeletesObject(s, Write(s, p, ok, pick),
                                                                                  s.procs[p].at)
  {
    WriteEffect(s, p, ok, pick);
  }

  lemma WriteStatus(s: State, p: Pid, ok: bool, pick: Format)
    requires p in s.procs
    ensures Write(s, p, ok, pick).status == s.status || MovesBuild(s, Write(s, p, ok, pick), s.procs[p].at,
                                                                   s.procs[p].build)
  {
    WriteEffect(s, p, ok, pick);
  }

  /** Builds stay claimed and stay completed. */
  lemma WriteLog(s: State, p: Pid, ok: bool, pick: Format)
    requires p in s.procs
    ensures var s' := Write(s, p, ok, pick);
            s.log.completed <= s'.log.completed && s.log.claimant.Keys <= s'.log.claimant.Keys
  {
    WriteEffect(s, p, ok, pick);
  }

  /** A step is its writes plus p's own entry of the process table. */
  lemma ActIsWrite(s: State, p: Pid, ok: bool, pick: Format)
    requires p in s.procs
    ensures Act(s, p, ok, pick) == Write(s, p, ok, pick).(procs := Act(s, p, ok, pick).procs)
    ensures forall q | q != p ::
              (q in Act(s, p, ok, pick).procs <==> q in s.procs)
              && (q in s.procs ==> Act(s, p, ok, pick).procs[q] == s.procs[q])
  {
    WriteFrame(s, p, ok, pick);
    MoveIsLocal(Write(s, p, ok, pick), p, s.procs[p].build, After(s, p, ok, pick));
  }

  lemma MoveIsLocal(s: State, p: Pid, b: BuildId, at: Option<Pc>)
    ensures Move(s, p, b, at) == s.(procs := Move(s, p, b, at).procs)
    ensures forall q | q != p ::
              (q in Move(s, p, b, at).procs <==> q in s.procs)
              && (q in s.procs ==> Move(s, p, b, at).procs[q] == s.procs[q])
  {
  }

  predicate FirstCall(at: Pc) {
    || at == Ensuring(WarmRow(false)) || at == Evicting(EvictLock) || at == Evicting(SweepLock)
    || at == Checking(CheckBuild(1))
  }

  /** A generation before the answer to its nested request. */
  predicate WaitsForRequest(at: Pc) {
    at.Checking? && (at.checkPc.AskParent? || at.checkPc.AwaitParent?)
  }

  /** p has made its nested request by this event. */
  predicate BeginsToWait(s: State, s': State, e: Event, p: Pid) {
    e.Nest? && e.pid == p && AsksParent(s, p) && p in s'.procs
    && s'.procs[p] == Proc(s.procs[p].build, Checking(AwaitParent(s.procs[p].at.checkPc.depth, e.helper)))
  }

  /** Events that are no step of a process leave rows, objects and the state of
      existing builds alone, and at most start or take down a process. */
  lemma OtherEffect(s: State, e: Event)
    requires Enabled(s, e) && !e.Step?
    ensures var s' := Do(s, e);
            && s'.arch == s.arch && s'.objects == s.objects && s'.log == s.log && s'.uuids == s.uuids
            && (e.OpenChannel? || s'.heads == s.heads)
            && (e.LosePatch? || s'.lost == s.lost)
            && (e.InsertBuild? || (s'.builds == s.builds && s'.status == s.status))
            && forall p | p in s'.procs ::
                 (p in s.procs && s'.procs[p] == s.procs[p]) || (Idle(s, p) && FirstCall(s'.procs[p].at))
                 || BeginsToWait(s, s', e, p)
  {
  }
}
