/** The cache's balance of work: over every run, what the rebuilds and the evictions
    of a build do not account for is the number of times a warm archive was marked
    for rebuilding. That never happens in careful runs, and orderly requests make
    careful runs. */
module ServerCaching {
  import opened Records
  import opened Server
  import opened ServerInvariant
  import opened ServerRuns
  import opened ServerEffects

  predicate NotUploaded(s: State, b: BuildId) {
    b in s.arch && s.arch[b].state != Uploaded
  }

  /** The successful rebuilds of b, plus one if its archive is cold now, less its
      evictions. */
  function Balance(s: State, b: BuildId): int {
    s.log.rebuilds[b] as int + (if NotUploaded(s, b) then 1 else 0) - s.log.marks[b] as int
  }

  // ---------- marking a warm archive for rebuilding ----------

  predicate RemarksNow(s: State, at: Pc, own: BuildId, ok: bool) {
    ok && at.Ensuring? && at.ensurePc.MarkRebuilding? && own in s.arch && s.arch[own].state == Uploaded
  }

  /** The event writes state rebuilding to the uploaded row of b. */
  predicate RemarksWarm(s: State, e: Event, b: BuildId) {
    e.Step? && e.pid in s.procs && s.procs[e.pid].build == b && RemarksNow(s, s.procs[e.pid].at, b, e.ok)
  }

  /** How often that happened in the first n events. */
  ghost function Remarks(states: seq<State>, events: seq<Event>, n: nat, b: BuildId): nat
    requires n <= |events| < |states|
  {
    if n == 0 then 0
    else Remarks(states, events, n - 1, b) + if RemarksWarm(states[n - 1], events[n - 1], b) then 1 else 0
  }

  // ---------- what each call does to the balance ----------

  function Shift(s: State, at: Pc, own: BuildId, ok: bool, b: BuildId): int {
    if own == b && RemarksNow(s, at, own, ok) then 1 else 0
  }

  lemma EnsureShifts(s: State, p: Pid, own: BuildId, pc: EnsurePc, ok: bool, b: BuildId)
    requires EnsureLocal(s, own, pc)
    ensures Balance(WriteEnsure(s, p, own, pc, ok), b) == Balance(s, b) + Shift(s, Ensuring(pc), own, ok, b)
  {
    EnsureEffect(s, p, own, pc, ok);
  }

  lemma ReplayShifts(s: State, p: Pid, own: BuildId, job: Job, pc: ReplayPc, ok: bool, pick: Format, b: BuildId)
    requires JobOk(s, p, own, job)
    ensures Balance(WriteReplay(s, own, job, pc, ok, pick), b) == Balance(s, b)
  {
    ReplayEffect(s, own, job, pc, ok, pick);
  }

  lemma EvictShifts(s: State, p: Pid, own: BuildId, pc: EvictPc, ok: bool, b: BuildId)
    requires EvictLocal(s, own, pc)
    ensures Balance(WriteEvict(s, p, own, pc, ok), b) == Balance(s, b)
  {
    EvictEffect(s, p, own, pc, ok);
  }

  lemma EnsureWriteShifts(s: State, p: Pid, ok: bool, pick: Format, b: BuildId)
    requires Procs(s) && p in s.procs && s.procs[p].at.Ensuring?
    ensures Balance(Write(s, p, ok, pick), b) == Balance(s, b) + Shift(s, s.procs[p].at, s.procs[p].build, ok, b)
  {
    assert EnsureLocal(s, s.procs[p].build, s.procs[p].at.ensurePc) by { assert ProcOk(s, p, s.procs[p]); }
    EnsureShifts(s, p, s.procs[p].build, s.procs[p].at.ensurePc, ok, b);
  }

  lemma ReplayWriteShifts(s: State, p: Pid, ok: bool, pick: Format, b: BuildId)
    requires Procs(s) && p in s.procs && s.procs[p].at.Replaying?
    ensures Balance(Write(s, p, ok, pick), b) == Balance(s, b)
  {
    assert JobOk(s, p, s.procs[p].build, s.procs[p].at.job) by { assert ProcOk(s, p, s.procs[p]); }
    ReplayShifts(s, p, s.procs[p].build, s.procs[p].at.job, s.procs[p].at.replayPc, ok, pick, b);
  }

  lemma EvictWriteShifts(s: State, p: Pid, ok: bool, pick: Format, b: BuildId)
    requires Procs(s) && p in s.procs && s.procs[p].at.Evicting?
    ensures Balance(Write(s, p, ok, pick), b) == Balance(s, b)
  {
    assert EvictLocal(s, s.procs[p].build, s.procs[p].at.evictPc) by { assert ProcOk(s, p, s.procs[p]); }
    EvictShifts(s, p, s.procs[p].build, s.procs[p].at.evictPc, ok, b);
  }

  lemma CheckWriteShifts(s: State, p: Pid, ok: bool, pick: Format, b: BuildId)
    requires p in s.procs && s.procs[p].at.Checking?
    ensures Balance(Write(s, p, ok, pick), b) == Balance(s, b)
  {
    CheckEffect(s, p, s.procs[p].build, s.procs[p].at.checkPc, ok);
  }

  lemma WriteShifts(s: State, p: Pid, ok: bool, pick: Format, b: BuildId)
    requires Procs(s) && p in s.procs
    ensures Balance(Write(s, p, ok, pick), b) == Balance(s, b) + Shift(s, s.procs[p].at, s.procs[p].build, ok, b)
  {
    match s.procs[p].at
    case Ensuring(_) => EnsureWriteShifts(s, p, ok, pick, b);
    case Replaying(_, _) => ReplayWriteShifts(s, p, ok, pick, b);
    case Checking(_) => CheckWriteShifts(s, p, ok, pick, b);
    case Evicting(_) => EvictWriteShifts(s, p, ok, pick, b);
    case _ => EndWriteShifts(s, p, ok, pick, b);
  }

  lemma EndWriteShifts(s: State, p: Pid, ok: bool, pick: Format, b: BuildId)
    requires p in s.procs && (s.procs[p].at.Unlock? || s.procs[p].at.Returned?)
    ensures Balance(Write(s, p, ok, pick), b) == Balance(s, b)
  {
  }

  lemma EventShifts(s: State, e: Event, b: BuildId)
    requires Inv(s) && Enabled(s, e)
    ensures Balance(Do(s, e), b) == Balance(s, b) + if RemarksWarm(s, e, b) then 1 else 0
  {
    if e.Step? {
      ActIsWrite(s, e.pid, e.ok, e.pick);
      WriteShifts(s, e.pid, e.ok, e.pick, b);
    } else {
      OtherEffect(s, e);
    }
  }

  lemma NextShifts(states: seq<State>, events: seq<Event>, i: nat, b: BuildId)
    requires IsRun(states, events) && i < |events|
    ensures Balance(states[i + 1], b) == Balance(states[i], b) + if RemarksWarm(states[i], events[i], b) then 1 else 0
  {
    RunKeeps(states, events, i);
    assert TransitionAt(states, events, i);
    EventShifts(states[i], events[i], b);
  }

  /** Over all interleavings, failures and crashes, in every run. */
  lemma {:induction false} BalanceCountsRemarks(states: seq<State>, events: seq<Event>, n: nat, b: BuildId)
    requires IsRun(states, events) && n < |states|
    ensures Balance(states[n], b) == Remarks(states, events, n, b)
  {
    if n > 0 {
      BalanceCountsRemarks(states, events, n - 1, b);
      NextShifts(states, events, n - 1, b);
    }
  }

  /** Double-checked locking does no duplicate work, each rebuild pays for one
      eviction, exactly as long as no warm archive is marked for rebuilding. */
  lemma EveryRebuildPaysForOneEviction(states: seq<State>, events: seq<Event>, n: nat, b: BuildId)
    requires IsRun(states, events) && n < |states|
    ensures states[n].log.rebuilds[b] + (if NotUploaded(states[n], b) then 1 else 0) == states[n].log.marks[b]
            <==> forall i: nat | i < n :: !RemarksWarm(states[i], events[i], b)
  {
    BalanceCountsRemarks(states, events, n, b);
    RemarksAddUp(states, events, n, b);
  }

  lemma {:induction false} RemarksAddUp(states: seq<State>, events: seq<Event>, n: nat, b: BuildId)
    requires n <= |events| < |states|
    ensures Remarks(states, events, n, b) == 0 <==> forall i: nat | i < n :: !RemarksWarm(states[i], events[i], b)
  {
    if n > 0 { RemarksAddUp(states, events, n - 1, b); }
  }

  // ---------- the guards ----------

  /** The check of rebuildArchive finds the build completed, although its archive
      row is uploaded. */
  predicate StartsWarm(s: State, e: Event) {
    e.Step? && e.ok && e.pid in s.procs && s.procs[e.pid].at == Ensuring(RebuildBuild)
    && var b := s.procs[e.pid].build;
       b in s.status && s.status[b] == Completed && UploadedRow(s, b)
  }

  /** No event of a careful run starts to rebuild an uploaded archive. */
  ghost function Careful(): (State, Event) -> bool { (s: State, e: Event) => !StartsWarm(s, e) }

  /** The two calls of warmArchive made under the lock. */
  predicate SecondLook(at: Pc) {
    at == Ensuring(WarmRow(true)) || (at.Ensuring? && at.ensurePc.WarmHead? && at.ensurePc.locked)
  }

  /** At the second look the row exists, and when it is uploaded the look is
      answered: an error there reads as a cold archive. */
  ghost function Orderly(): (State, Event) -> bool {
    (s: State, e: Event) =>
      e.Step? && e.pid in s.procs && SecondLook(s.procs[e.pid].at) ==>
        var b := s.procs[e.pid].build;
        b in s.arch && (s.arch[b].state == Uploaded ==> e.ok)
  }

  ghost predicate RunObeys(rule: (State, Event) -> bool, states: seq<State>, events: seq<Event>) {
    IsRun(states, events) && forall i: nat | i < |events| :: rule(states[i], events[i])
  }

  /** A process about to mark a row has seen, under the lock, that the archive is
      cold; when requests are orderly, already since its second look. */
  ghost predicate ColdOk(s: State, proc: Proc, orderly: bool) {
    var b := proc.build;
    proc.at.Ensuring? ==>
      match proc.at.ensurePc
      case WarmHead(locked, key) =>
        orderly && locked ==> b in s.arch && s.arch[b].state == Uploaded && s.arch[b].path == Some(key)
      case RebuildBuild => orderly ==> NotUploaded(s, b)
      case RebuildRow => NotUploaded(s, b)
      case MarkRebuilding(_) => NotUploaded(s, b)
      case _ => true
  }

  ghost predicate AllCold(s: State, orderly: bool) {
    forall p {:trigger ColdOk(s, s.procs[p], orderly)} | p in s.procs :: ColdOk(s, s.procs[p], orderly)
  }

  ghost predicate Guarded(s: State, e: Event, orderly: bool) {
    if orderly then Orderly()(s, e) else Careful()(s, e)
  }

  /** The row under q's lock is not touched by a step of p. */
  lemma RowUnderLock(s: State, p: Pid, ok: bool, pick: Format, q: Pid)
    requires Inv(s) && p in s.procs && q in s.procs && q != p && s.procs[q].build in s.arch && Holds(s.procs[q].at)
    ensures var b := s.procs[q].build;
            b in Write(s, p, ok, pick).arch && Write(s, p, ok, pick).arch[b] == s.arch[b]
  {
    WriteRow(s, p, ok, pick);
    assert ProcOk(s, p, s.procs[p]) && ProcOk(s, q, s.procs[q]);
  }

  lemma OtherStaysCold(s: State, p: Pid, ok: bool, pick: Format, q: Pid, orderly: bool)
    requires Inv(s) && p in s.procs && q in s.procs && q != p && ColdOk(s, s.procs[q], orderly)
    ensures ColdOk(Act(s, p, ok, pick), s.procs[q], orderly)
  {
    ActIsWrite(s, p, ok, pick);
    if s.procs[q].at.Ensuring? && Holds(s.procs[q].at) && s.procs[q].build in s.arch {
      RowUnderLock(s, p, ok, pick, q);
    }
  }

  lemma EnsureStaysCold(s: State, p: Pid, b: BuildId, pc: EnsurePc, ok: bool, orderly: bool)
    requires Tables(s) && ColdOk(s, Proc(b, Ensuring(pc)), orderly) && EnsureLocal(s, b, pc)
    requires orderly && SecondLook(Ensuring(pc)) ==> b in s.arch && (s.arch[b].state == Uploaded ==> ok)
    requires !orderly && pc == RebuildBuild && ok && b in s.status && s.status[b] == Completed ==> !UploadedRow(s, b)
    ensures ColdOk(WriteEnsure(s, p, b, pc, ok), Proc(b, AfterEnsure(s, b, pc, ok)), orderly)
  {
    if b in s.arch { assert RowOk(s, b); }
    if b in s.builds { assert LifeOk(s, b); }
  }

  lemma StepStaysCold(s: State, p: Pid, ok: bool, pick: Format, orderly: bool)
    requires Inv(s) && p in s.procs && ColdOk(s, s.procs[p], orderly) && Guarded(s, Step(p, ok, pick), orderly)
    requires After(s, p, ok, pick).Some?
    ensures ColdOk(Write(s, p, ok, pick), Proc(s.procs[p].build, After(s, p, ok, pick).value), orderly)
  {
    if s.procs[p].at.Ensuring? {
      var b, pc := s.procs[p].build, s.procs[p].at.ensurePc;
      assert EnsureLocal(s, b, pc) by { assert ProcOk(s, p, s.procs[p]); }
      EnsureStaysCold(s, p, b, pc, ok, orderly);
    } else {
      OnlyReverts(s, p, ok, pick);
    }
  }

  lemma OnlyReverts(s: State, p: Pid, ok: bool, pick: Format)
    requires p in s.procs && !s.procs[p].at.Ensuring?
    ensures var next := After(s, p, ok, pick); next.Some? && next.value.Ensuring? ==> next.value.ensurePc.Revert?
  {
  }

  lemma StepKeepsCold(s: State, p: Pid, ok: bool, pick: Format, orderly: bool)
    requires Inv(s) && AllCold(s, orderly) && p in s.procs && Guarded(s, Step(p, ok, pick), orderly)
    ensures AllCold(Act(s, p, ok, pick), orderly)
  {
    var s' := Act(s, p, ok, pick);
    ActIsWrite(s, p, ok, pick);
    forall q | q in s'.procs ensures ColdOk(s', s'.procs[q], orderly) {
      assert ColdOk(s, s.procs[q], orderly);
      if q != p { OtherStaysCold(s, p, ok, pick, q, orderly); }
      else { StepStaysCold(s, p, ok, pick, orderly); OwnMove(s, p, ok, pick); }
    }
  }

  lemma OwnMove(s: State, p: Pid, ok: bool, pick: Format)
    requires p in s.procs && p in Act(s, p, ok, pick).procs
    ensures After(s, p, ok, pick).Some?
    ensures Act(s, p, ok, pick).procs[p] == Proc(s.procs[p].build, After(s, p, ok, pick).value)
  {
  }

  lemma EventKeepsCold(s: State, e: Event, orderly: bool)
    requires Inv(s) && AllCold(s, orderly) && Enabled(s, e) && Guarded(s, e, orderly)
    ensures AllCold(Do(s, e), orderly)
  {
    if e.Step? { StepKeepsCold(s, e.pid, e.ok, e.pick, orderly); } else { OtherKeepsCold(s, e, orderly); }
  }

  lemma OtherKeepsCold(s: State, e: Event, orderly: bool)
    requires AllCold(s, orderly) && Enabled(s, e) && !e.Step?
    ensures AllCold(Do(s, e), orderly)
  {
    var s' := Do(s, e);
    OtherEffect(s, e);
    forall p | p in s'.procs ensures ColdOk(s', s'.procs[p], orderly) {
      if p in s.procs && s'.procs[p] == s.procs[p] { assert ColdOk(s, s.procs[p], orderly); }
    }
  }

  lemma NextKeepsCold(states: seq<State>, events: seq<Event>, i: nat, orderly: bool)
    requires IsRun(states, events) && i < |events| && AllCold(states[i], orderly)
    requires Guarded(states[i], events[i], orderly)
    ensures AllCold(states[i + 1], orderly)
  {
    RunKeeps(states, events, i);
    assert TransitionAt(states, events, i);
    EventKeepsCold(states[i], events[i], orderly);
  }

  lemma {:induction false} GuardedRunIsCold(states: seq<State>, events: seq<Event>, n: nat, orderly: bool)
    requires IsRun(states, events) && n < |states|
    requires forall i: nat | i < n :: Guarded(states[i], events[i], orderly)
    ensures AllCold(states[n], orderly)
  {
    if n > 0 {
      GuardedRunIsCold(states, events, n - 1, orderly);
      NextKeepsCold(states, events, n - 1, orderly);
    }
  }

  /** When no rebuild starts on an uploaded archive, none is marked either. */
  lemma CarefulRunsRemarkNothing(states: seq<State>, events: seq<Event>, n: nat, b: BuildId)
    requires RunObeys(Careful(), states, events) && n < |events|
    ensures !RemarksWarm(states[n], events[n], b)
  {
    forall i: nat | i < n ensures Guarded(states[i], events[i], false) { assert Careful()(states[i], events[i]); }
    GuardedRunIsCold(states, events, n, false);
    if events[n].Step? && events[n].pid in states[n].procs {
      assert ColdOk(states[n], states[n].procs[events[n].pid], false);
    }
  }

  /** The balance in careful runs. */
  lemma CarefulRunsBalance(states: seq<State>, events: seq<Event>, n: nat, b: BuildId)
    requires RunObeys(Careful(), states, events) && n < |states|
    ensures Balance(states[n], b) == 0
  {
    EveryRebuildPaysForOneEviction(states, events, n, b);
    forall i: nat | i < n ensures !RemarksWarm(states[i], events[i], b) {
      CarefulRunsRemarkNothing(states, events, i, b);
    }
  }

  /** Orderly requests make a careful run. */
  lemma OrderlyRunsAreCareful(states: seq<State>, events: seq<Event>)
    requires RunObeys(Orderly(), states, events)
    ensures RunObeys(Careful(), states, events)
  {
    forall n: nat | n < |events| ensures Careful()(states[n], events[n]) {
      forall i: nat | i < n ensures Guarded(states[i], events[i], true) { assert Orderly()(states[i], events[i]); }
      GuardedRunIsCold(states, events, n, true);
      if events[n].Step? && events[n].pid in states[n].procs {
        assert ColdOk(states[n], states[n].procs[events[n].pid], true);
      }
    }
  }
}
