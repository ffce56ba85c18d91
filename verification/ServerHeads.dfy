/** Channel heads. Completion and the head's advance are two calls, so a head can
    be crowned twice and can lose its archive. Neither happens in a settled run,
    and the module Races shows that every other event leads to one of the two. */
module ServerHeads {
  import opened Records
  import opened Server
  import opened ServerInvariant
  import opened ServerRuns
  import opened ServerEffects
  import opened ServerCaching

  predicate Crowning(at: Pc) {
    at == Checking(Crown)
  }

  /** An eviction that has not written its mark yet. */
  predicate Marking(at: Pc) {
    at.Evicting? && (at.evictPc.EvictLock? || at.evictPc.EvictRead? || at.evictPc.Guard? || at.evictPc.EvictMark?)
  }

  /** One that has already found its build to be no head. */
  predicate PastHeadGuard(at: Pc) {
    at.Evicting? && (at.evictPc.EvictMark? || (at.evictPc.Guard? && at.evictPc.check != NotHead))
  }

  /** It goes on to write its mark unless the patch object is gone. */
  predicate WillMark(lost: set<BuildId>, proc: Proc) {
    PastHeadGuard(proc.at) && proc.build !in lost
  }

  // ---------- settled events ----------

  /** A build is completed only while it was never head, never evicted, and no other
      process is making it head or evicting it; the guard on heads is not passed by
      a build that is about to become one, unless its patch is gone. */
  ghost predicate SettledStep(s: State, p: Pid)
    requires p in s.procs
  {
    var b := s.procs[p].build;
    match s.procs[p].at
    case Checking(Complete) =>
      && s.log.crowned[b] == 0 && s.log.marks[b] == 0
      && forall q | q in s.procs && s.procs[q].build == b :: !Crowning(s.procs[q].at) && !WillMark(s.lost, s.procs[q])
    case Evicting(Guard(_, NotHead)) =>
      IsHead(s, b) || b in s.lost || forall q | q in s.procs && s.procs[q].build == b :: !Crowning(s.procs[q].at)
    case _ => true
  }

  ghost predicate Settled(s: State, e: Event) {
    e.Step? && e.ok && e.pid in s.procs ==> SettledStep(s, e.pid)
  }

  ghost function SettledEvents(): (State, Event) -> bool { (s: State, e: Event) => Settled(s, e) }

  ghost predicate SettledRun(states: seq<State>, events: seq<Event>) {
    RunObeys(SettledEvents(), states, events)
  }

  /** A build was made head twice, or a current head has been evicted. */
  ghost predicate HeadHarmed(s: State, b: BuildId) {
    s.log.crowned[b] >= 2 || (IsHead(s, b) && s.log.marks[b] >= 1)
  }

  // ---------- the invariant ----------

  ghost predicate HeadOk(s: State, b: BuildId) {
    && (IsHead(s, b) ==> b in s.log.completed && s.log.marks[b] == 0)
    && (b !in s.log.completed ==> s.log.crowned[b] == 0 && s.log.marks[b] == 0)
    && s.log.crowned[b] <= 1
  }

  ghost predicate ProcHead(s: State, proc: Proc) {
    var b := proc.build;
    && (Crowning(proc.at) ==> b in s.log.completed && s.log.marks[b] == 0 && s.log.crowned[b] == 0)
    && (Marking(proc.at) ==> b in s.log.completed)
    && (WillMark(s.lost, proc) ==> !IsHead(s, b))
    && (PatchGuarded(proc.at) ==> b !in s.lost)
  }

  /** While one process is about to advance the head to a build, no other does so
      and none will mark the build's archive. */
  ghost predicate Apart(lost: set<BuildId>, proc: Proc, other: Proc) {
    proc.build == other.build && Crowning(proc.at) ==> !Crowning(other.at) && !WillMark(lost, other)
  }

  ghost predicate HeadInv(s: State) {
    && (forall b {:trigger HeadOk(s, b)} :: HeadOk(s, b))
    && (forall p {:trigger ProcHead(s, s.procs[p])} | p in s.procs :: ProcHead(s, s.procs[p]))
    && (forall p, q {:trigger Apart(s.lost, s.procs[p], s.procs[q])} | p in s.procs && q in s.procs && p != q ::
          Apart(s.lost, s.procs[p], s.procs[q]))
  }

  // ---------- what a call does to heads, marks and crowns ----------

  predicate CompletesNow(s: State, at: Pc, b: BuildId, ok: bool) {
    ok && at == Checking(Complete) && KnownBuild(s, b)
  }

  predicate CrownsNow(s: State, at: Pc, b: BuildId, ok: bool) {
    ok && Crowning(at) && KnownBuild(s, b) && s.builds[b].channel in s.heads
  }

  predicate MarksNow(at: Pc, ok: bool) {
    ok && at.Evicting? && at.evictPc.EvictMark?
  }

  ghost predicate HeadChange(s: State, s': State, at: Pc, b: BuildId, ok: bool) {
    && s'.log.completed == (if CompletesNow(s, at, b, ok) then s.log.completed + {b} else s.log.completed)
    && s'.log.crowned == (if CrownsNow(s, at, b, ok) then s.log.crowned + multiset{b} else s.log.crowned)
    && s'.log.marks == (if MarksNow(at, ok) then s.log.marks + multiset{b} else s.log.marks)
    && (if CrownsNow(s, at, b, ok) then s'.heads == s.heads[s.builds[b].channel := Some(b)] else s'.heads == s.heads)
  }

  lemma EnsureHeads(s: State, p: Pid, ok: bool, pick: Format)
    requires p in s.procs && s.procs[p].at.Ensuring?
    ensures HeadChange(s, Write(s, p, ok, pick), s.procs[p].at, s.procs[p].build, ok)
  {
    EnsureEffect(s, p, s.procs[p].build, s.procs[p].at.ensurePc, ok);
  }

  lemma ReplayHeads(s: State, p: Pid, ok: bool, pick: Format)
    requires p in s.procs && s.procs[p].at.Replaying?
    ensures HeadChange(s, Write(s, p, ok, pick), s.procs[p].at, s.procs[p].build, ok)
  {
    ReplayEffect(s, s.procs[p].build, s.procs[p].at.job, s.procs[p].at.replayPc, ok, pick);
  }

  lemma CheckCallHeads(s: State, p: Pid, b: BuildId, pc: CheckPc, ok: bool)
    ensures HeadChange(s, WriteCheck(s, p, b, pc, ok), Checking(pc), b, ok)
  {
  }

  lemma CheckHeads(s: State, p: Pid, ok: bool, pick: Format)
    requires p in s.procs && s.procs[p].at.Checking?
    ensures HeadChange(s, Write(s, p, ok, pick), s.procs[p].at, s.procs[p].build, ok)
  {
    CheckCallHeads(s, p, s.procs[p].build, s.procs[p].at.checkPc, ok);
  }

  lemma EvictCallHeads(s: State, p: Pid, b: BuildId, pc: EvictPc, ok: bool)
    ensures HeadChange(s, WriteEvict(s, p, b, pc, ok), Evicting(pc), b, ok)
  {
    EvictEffect(s, p, b, pc, ok);
  }

  lemma EvictHeads(s: State, p: Pid, ok: bool, pick: Format)
    requires p in s.procs && s.procs[p].at.Evicting?
    ensures HeadChange(s, Write(s, p, ok, pick), s.procs[p].at, s.procs[p].build, ok)
  {
    EvictCallHeads(s, p, s.procs[p].build, s.procs[p].at.evictPc, ok);
  }

  lemma HeadEffect(s: State, p: Pid, ok: bool, pick: Format)
    requires p in s.procs
    ensures HeadChange(s, Write(s, p, ok, pick), s.procs[p].at, s.procs[p].build, ok)
  {
    match s.procs[p].at
    case Ensuring(_) => EnsureHeads(s, p, ok, pick);
    case Replaying(_, _) => ReplayHeads(s, p, ok, pick);
    case Checking(_) => CheckHeads(s, p, ok, pick);
    case Evicting(_) => EvictHeads(s, p, ok, pick);
    case _ =>
  }

  ghost predicate PassesHeadGuard(s: State, at: Pc, b: BuildId, ok: bool) {
    ok && at.Evicting? && at.evictPc.Guard? && at.evictPc.check == NotHead && !IsHead(s, b)
  }

  /** Where a crowning or marking process has come from. */
  lemma CrowningOrigin(s: State, p: Pid, ok: bool, pick: Format)
    requires p in s.procs && After(s, p, ok, pick).Some?
    ensures var at, next := s.procs[p].at, After(s, p, ok, pick).value;
            && (Crowning(next) ==> CompletesNow(s, at, s.procs[p].build, ok))
            && (Marking(next) ==> Marking(at))
            && (PastHeadGuard(next) ==> PastHeadGuard(at) || PassesHeadGuard(s, at, s.procs[p].build, ok))
            && (PatchGuarded(next) ==> PatchGuarded(at) || (Marking(at) && s.procs[p].build !in s.lost))
  {
    match s.procs[p].at
    case Evicting(pc) =>
    case _ =>
  }

  // ---------- every event of a settled run keeps it ----------

  lemma HeadsAfter(s: State, p: Pid, ok: bool, pick: Format, b: BuildId)
    requires p in s.procs
    ensures Write(s, p, ok, pick).lost == s.lost
    ensures IsHead(Write(s, p, ok, pick), b) ==>
              IsHead(s, b) || (b == s.procs[p].build && CrownsNow(s, s.procs[p].at, b, ok))
  {
    WriteFrame(s, p, ok, pick);
    HeadEffect(s, p, ok, pick);
    var s' := Write(s, p, ok, pick);
    if IsHead(s', b) { var channel :| channel in s'.heads && s'.heads[channel] == Some(b); }
  }

  lemma StepHeads(s: State, p: Pid, ok: bool, pick: Format, b: BuildId)
    requires HeadInv(s) && p in s.procs && (ok ==> SettledStep(s, p))
    ensures HeadOk(Write(s, p, ok, pick), b)
  {
    HeadEffect(s, p, ok, pick);
    HeadsAfter(s, p, ok, pick, b);
    assert HeadOk(s, b) && ProcHead(s, s.procs[p]);
  }

  lemma OtherProcHead(s: State, p: Pid, ok: bool, pick: Format, q: Pid)
    requires HeadInv(s) && p in s.procs && q in s.procs && q != p
    ensures ProcHead(Write(s, p, ok, pick), s.procs[q])
  {
    HeadEffect(s, p, ok, pick);
    HeadsAfter(s, p, ok, pick, s.procs[q].build);
    assert ProcHead(s, s.procs[p]) && ProcHead(s, s.procs[q]);
    assert Apart(s.lost, s.procs[p], s.procs[q]) && Apart(s.lost, s.procs[q], s.procs[p]);
  }

  lemma OwnProcHead(s: State, p: Pid, ok: bool, pick: Format, proc: Proc)
    requires HeadInv(s) && p in s.procs && After(s, p, ok, pick).Some? && (ok ==> SettledStep(s, p))
    requires proc == Proc(s.procs[p].build, After(s, p, ok, pick).value)
    ensures ProcHead(Write(s, p, ok, pick), proc)
  {
    HeadEffect(s, p, ok, pick);
    HeadsAfter(s, p, ok, pick, proc.build);
    CrowningOrigin(s, p, ok, pick);
    assert HeadOk(s, proc.build) && ProcHead(s, s.procs[p]);
  }

  lemma OwnApart(s: State, p: Pid, ok: bool, pick: Format, proc: Proc, q: Pid)
    requires HeadInv(s) && p in s.procs && After(s, p, ok, pick).Some? && (ok ==> SettledStep(s, p))
    requires proc == Proc(s.procs[p].build, After(s, p, ok, pick).value)
    requires q in s.procs && q != p
    ensures Apart(s.lost, proc, s.procs[q]) && Apart(s.lost, s.procs[q], proc)
  {
    CrowningOrigin(s, p, ok, pick);
    assert HeadOk(s, proc.build) && ProcHead(s, s.procs[p]) && ProcHead(s, s.procs[q]);
    assert Apart(s.lost, s.procs[p], s.procs[q]) && Apart(s.lost, s.procs[q], s.procs[p]);
  }

  lemma StepKeepsHeads(s: State, p: Pid, ok: bool, pick: Format)
    requires HeadInv(s) && p in s.procs && (ok ==> SettledStep(s, p))
    ensures HeadInv(Act(s, p, ok, pick))
  {
    var s' := Act(s, p, ok, pick);
    ActIsWrite(s, p, ok, pick);
    WriteFrame(s, p, ok, pick);
    if p in s'.procs { OwnMove(s, p, ok, pick); }
    forall b ensures HeadOk(s', b) {
      StepHeads(s, p, ok, pick, b);
      assert HeadOk(Write(s, p, ok, pick), b);
    }
    forall q | q in s'.procs ensures ProcHead(s', s'.procs[q]) {
      if q != p { OtherProcHead(s, p, ok, pick, q); } else { OwnProcHead(s, p, ok, pick, s'.procs[p]); }
    }
    forall q, r | q in s'.procs && r in s'.procs && q != r ensures Apart(s'.lost, s'.procs[q], s'.procs[r]) {
      if q == p { OwnApart(s, p, ok, pick, s'.procs[p], r); }
      else if r == p { OwnApart(s, p, ok, pick, s'.procs[p], q); }
      else { assert Apart(s.lost, s.procs[q], s.procs[r]); }
    }
  }

  /** Events that are no step start nobody who crowns or is past the guard, and a
      new eviction is of a completed build. */
  lemma SpawnsNoMarker(s: State, e: Event, p: Pid)
    requires Lineage(s) && Life(s) && Enabled(s, e) && !e.Step? && p in Do(s, e).procs
    ensures var proc := Do(s, e).procs[p];
            || (p in s.procs && proc == s.procs[p])
            || (!Crowning(proc.at) && !PastHeadGuard(proc.at) && !PatchGuarded(proc.at)
                && (Marking(proc.at) ==> proc.build in s.log.completed))
  {
    if e.ListForEviction? { assert LifeOk(s, e.build); }
  }

  lemma LostGrows(s: State, e: Event, p: Pid)
    requires Enabled(s, e) && !e.Step? && p in s.procs
    ensures s.lost <= Do(s, e).lost
    ensures PatchGuarded(s.procs[p].at) && s.procs[p].build !in s.lost ==> s.procs[p].build !in Do(s, e).lost
  {
  }

  lemma OtherProcs(s: State, e: Event, q: Pid)
    requires Lineage(s) && Life(s) && HeadInv(s) && Enabled(s, e) && !e.Step? && q in Do(s, e).procs
    ensures ProcHead(Do(s, e), Do(s, e).procs[q])
  {
    var s' := Do(s, e);
    assert s'.log == s.log by { OtherEffect(s, e); }
    SpawnsNoMarker(s, e, q);
    if q in s.procs && s'.procs[q] == s.procs[q] {
      assert ProcHead(s, s.procs[q]);
      LostGrows(s, e, q);
      HeadsAppearByCrowning(s, e);
      OldProcHead(s, s', s.procs[q]);
    }
  }

  lemma OldProcHead(s: State, s': State, proc: Proc)
    requires ProcHead(s, proc) && s'.log == s.log && s.lost <= s'.lost
    requires PatchGuarded(proc.at) && proc.build !in s.lost ==> proc.build !in s'.lost
    requires forall b: BuildId :: IsHead(s', b) ==> IsHead(s, b)
    ensures ProcHead(s', proc)
  {
  }

  lemma OtherPairs(s: State, e: Event, q: Pid, r: Pid)
    requires Lineage(s) && Life(s) && HeadInv(s) && Enabled(s, e) && !e.Step?
    requires q in Do(s, e).procs && r in Do(s, e).procs && q != r
    ensures Apart(Do(s, e).lost, Do(s, e).procs[q], Do(s, e).procs[r])
  {
    SpawnsNoMarker(s, e, q);
    SpawnsNoMarker(s, e, r);
    if q in s.procs && r in s.procs {
      assert Apart(s.lost, s.procs[q], s.procs[r]);
      LostGrows(s, e, r);
    }
  }

  lemma OtherKeepsHeads(s: State, e: Event)
    requires Lineage(s) && Life(s) && HeadInv(s) && Enabled(s, e) && !e.Step?
    ensures HeadInv(Do(s, e))
  {
    var s' := Do(s, e);
    forall b ensures HeadOk(s', b) {
      OtherEffect(s, e);
      HeadsAppearByCrowning(s, e);
      assert HeadOk(s, b);
    }
    forall q | q in s'.procs ensures ProcHead(s', s'.procs[q]) { OtherProcs(s, e, q); }
    forall q, r | q in s'.procs && r in s'.procs && q != r ensures Apart(s'.lost, s'.procs[q], s'.procs[r]) {
      OtherPairs(s, e, q, r);
    }
  }

  lemma HeadsAppearByCrowning(s: State, e: Event)
    requires Enabled(s, e) && !e.Step?
    ensures forall b: BuildId :: IsHead(Do(s, e), b) ==> IsHead(s, b)
  {
    forall b: BuildId | IsHead(Do(s, e), b) ensures IsHead(s, b) {
      var channel :| channel in Do(s, e).heads && Do(s, e).heads[channel] == Some(b);
      if !e.OpenChannel? { OtherEffect(s, e); }
      assert channel in s.heads;
    }
  }

  lemma NextKeepsHeads(states: seq<State>, events: seq<Event>, i: nat)
    requires IsRun(states, events) && i < |events| && HeadInv(states[i]) && Settled(states[i], events[i])
    ensures HeadInv(states[i + 1])
  {
    var s, e := states[i], events[i];
    RunKeeps(states, events, i);
    assert TransitionAt(states, events, i);
    if e.Step? { StepKeepsHeads(s, e.pid, e.ok, e.pick); } else { OtherKeepsHeads(s, e); }
  }

  lemma {:induction false} SettledStartKeepsHeads(states: seq<State>, events: seq<Event>, n: nat)
    requires IsRun(states, events) && n < |states| && forall i: nat | i < n :: Settled(states[i], events[i])
    ensures HeadInv(states[n])
  {
    if n > 0 {
      SettledStartKeepsHeads(states, events, n - 1);
      NextKeepsHeads(states, events, n - 1);
    }
  }

  lemma SettledRunKeepsHeads(states: seq<State>, events: seq<Event>, n: nat)
    requires SettledRun(states, events) && n < |states|
    ensures HeadInv(states[n])
  {
    forall i: nat | i < n ensures Settled(states[i], events[i]) { assert SettledEvents()(states[i], events[i]); }
    SettledStartKeepsHeads(states, events, n);
  }

  // ---------- results ----------

  /** A build becomes head at most once. */
  lemma CrownedAtMostOnce(states: seq<State>, events: seq<Event>, n: nat, b: BuildId)
    requires SettledRun(states, events) && n < |states|
    ensures states[n].log.crowned[b] <= 1
  {
    SettledRunKeepsHeads(states, events, n);
    assert HeadOk(states[n], b);
  }

  /** With listing, checks and mark as separate calls, no eviction marks the row
      of a build that is a channel head at that moment, and the archive of a
      current head has never been evicted before either. */
  lemma HeadsAreNeverEvicted(states: seq<State>, events: seq<Event>, n: nat, b: BuildId)
    requires SettledRun(states, events) && n < |states|
    requires IsHead(states[n], b)
    ensures states[n].log.marks[b] == 0
    ensures n + 1 < |states| ==> states[n + 1].log.marks[b] == 0
  {
    SettledRunKeepsHeads(states, events, n);
    assert HeadOk(states[n], b);
    if n + 1 < |states| { HeadKeepsItsArchive(states, events, n, b); }
  }

  lemma HeadKeepsItsArchive(states: seq<State>, events: seq<Event>, n: nat, b: BuildId)
    requires SettledRun(states, events) && n < |events| && HeadInv(states[n])
    requires IsHead(states[n], b)
    ensures states[n + 1].log.marks == states[n].log.marks || states[n + 1].log.marks[b] == 0
  {
    var s, e := states[n], events[n];
    assert HeadOk(s, b);
    assert TransitionAt(states, events, n);
    if e.Step? {
      ActIsWrite(s, e.pid, e.ok, e.pick);
      HeadEffect(s, e.pid, e.ok, e.pick);
      assert ProcHead(s, s.procs[e.pid]);
    } else {
      OtherEffect(s, e);
    }
  }

  /** A channel head is warm exactly when it was rebuilt as often as its warm archive
      was marked for rebuilding; in careful runs, always. */
  lemma HeadsAreWarm(states: seq<State>, events: seq<Event>, n: nat, b: BuildId)
    requires SettledRun(states, events) && n < |states|
    requires IsHead(states[n], b)
    ensures Warm(states[n], b) <==> states[n].log.rebuilds[b] == Remarks(states, events, n, b)
    ensures RunObeys(Careful(), states, events) ==> Warm(states[n], b)
  {
    SettledRunKeepsHeads(states, events, n);
    RunKeeps(states, events, n);
    BalanceCountsRemarks(states, events, n, b);
    assert HeadOk(states[n], b);
    assert LifeOk(states[n], b) && RowOk(states[n], b);
    if RunObeys(Careful(), states, events) { CarefulRunsBalance(states, events, n, b); }
  }

  // ---------- a transaction makes settled runs ----------

  /** While a build is completed and about to be head, only the process that completed
      it makes a call: the two calls are one step. */
  predicate ActsAlone(s: State, e: Event) {
    forall p | p in s.procs && Crowning(s.procs[p].at) :: (e.Step? || e.Crash?) && e.pid == p
  }

  /** A build that is completed already is not completed again. */
  predicate CompletesOnce(s: State, e: Event) {
    e.Step? && e.ok && e.pid in s.procs && s.procs[e.pid].at == Checking(Complete) ==>
      var b := s.procs[e.pid].build; b in s.status ==> s.status[b] != Completed
  }

  ghost function Undivided(): (State, Event) -> bool { (s: State, e: Event) => ActsAlone(s, e) }

  ghost function Once(): (State, Event) -> bool { (s: State, e: Event) => CompletesOnce(s, e) }

  ghost function Transactional(): (State, Event) -> bool {
    (s: State, e: Event) => ActsAlone(s, e) && CompletesOnce(s, e)
  }

  lemma TransactionalIsSettled(s: State, e: Event)
    requires Inv(s) && HeadInv(s) && Enabled(s, e) && Transactional()(s, e)
    ensures Settled(s, e)
  {
    if e.Step? && e.ok && s.procs[e.pid].at == Checking(Complete) {
      var b := s.procs[e.pid].build;
      assert b in s.arch by { assert ProcOk(s, e.pid, s.procs[e.pid]); }
      assert LifeOk(s, b) && HeadOk(s, b);
      forall q | q in s.procs && s.procs[q].build == b
        ensures !Crowning(s.procs[q].at) && !WillMark(s.lost, s.procs[q])
      {
        assert ProcHead(s, s.procs[q]);
      }
    }
  }

  lemma {:induction false} TransactionalStartIsSettled(states: seq<State>, events: seq<Event>, n: nat)
    requires RunObeys(Transactional(), states, events) && n <= |events|
    ensures forall i: nat | i < n :: Settled(states[i], events[i])
  {
    if n > 0 {
      TransactionalStartIsSettled(states, events, n - 1);
      SettledStartKeepsHeads(states, events, n - 1);
      RunKeeps(states, events, n - 1);
      assert TransitionAt(states, events, n - 1) && Transactional()(states[n - 1], events[n - 1]);
      TransactionalIsSettled(states[n - 1], events[n - 1]);
    }
  }

  /** A completion that checks the state and advances the head in the same step makes
      every run settled. */
  lemma TransactionalRunsAreSettled(states: seq<State>, events: seq<Event>)
    requires RunObeys(Transactional(), states, events)
    ensures SettledRun(states, events)
  {
    TransactionalStartIsSettled(states, events, |events|);
  }

  // ---------- for the states settled events lead to ----------

  /** The two results together. */
  lemma SettledHarmsNoHead(s: State, b: BuildId)
    requires Leads(SettledEvents(), Init(), s)
    ensures !HeadHarmed(s, b)
  {
    var states, events :| RunBy(SettledEvents(), states, events) && states[0] == Init() && states[|events|] == s;
    RunByIsRun(SettledEvents(), states, events);
    CrownedAtMostOnce(states, events, |events|, b);
    if IsHead(s, b) { HeadsAreNeverEvicted(states, events, |events|, b); }
  }
}
