/** When a generation does not miss its parent: it is enough that the parent's row
    stays uploaded from the nested request until the archive has been fetched, as
    it does in careful and settled runs while the parent is its channel's head. And a
    generation reads nothing before its nested request was answered. */
module ServerParents {
  import opened Records
  import opened Trees
  import opened Server
  import opened ServerInvariant
  import opened ServerRuns
  import opened ServerEffects
  import opened ServerSafety
  import opened ServerCaching
  import opened ServerHeads
  import opened ServerFinalize

  /** A generation that has not fetched its parent's archive yet. */
  predicate NeedsParent(at: Pc) {
    match at
    case Replaying(Generate(_), Base(_, _, BaseRow)) => true
    case Replaying(Generate(_), Base(_, _, BaseGet(_))) => true
    case _ => WaitsForRequest(at)
  }

  ghost predicate Needed(s: State, b: BuildId) {
    exists p :: p in s.procs && s.procs[p].build == b && NeedsParent(s.procs[p].at)
  }

  /** While a generation of b needs its parent's archive, the row says uploaded. */
  ghost predicate ParentStays(s: State, b: BuildId) {
    Needed(s, b) && HasParent(s, b) ==> UploadedRow(s, s.builds[b].parent.value)
  }

  /** The process q serves the nested request of the generation of b. */
  ghost predicate Helps(s: State, q: Pid, b: BuildId) {
    exists p :: p in s.procs && s.procs[p].build == b && AwaitsHelper(s.procs[p].at, q)
  }

  predicate AwaitsHelper(at: Pc, q: Pid) {
    at.Checking? && at.checkPc.AwaitParent? && at.checkPc.helper == q
  }

  /** The calls of the nested request succeed and it is not cut short. */
  ghost predicate Attended(s: State, e: Event, b: BuildId) {
    match e
    case Step(q, ok, _) => Helps(s, q, b) ==> ok
    case Crash(q) => !Helps(s, q, b)
    case _ => true
  }

  // ---------- what is known while the row stays uploaded ----------

  predicate RowHas(s: State, b: BuildId, key: Key) {
    UploadedRow(s, b) && s.arch[b].path == Some(key)
  }

  predicate Answering(s: State, parent: BuildId, at: Pc) {
    match at
    case Ensuring(WarmRow(false)) => true
    case Ensuring(WarmHead(false, key)) => RowHas(s, parent, key)
    case Returned(result) => result.Some?
    case _ => false
  }

  predicate Served(s: State, b: BuildId, at: Pc) {
    match at
    case Checking(AwaitParent(_, q)) =>
      && b in s.builds && s.builds[b].parent.Some?
      && q in s.procs && s.procs[q].build == s.builds[b].parent.value && Answering(s, s.procs[q].build, s.procs[q].at)
    case Replaying(Generate(_), Base(_, parent, BaseGet(key))) => RowHas(s, parent, key)
    case _ => true
  }

  ghost predicate OnTrack(s: State, b: BuildId) {
    forall p {:trigger Served(s, b, s.procs[p].at)} | p in s.procs && s.procs[p].build == b ::
      Served(s, b, s.procs[p].at)
  }

  lemma FetchIsAnswered(s: State, p: Pid, b: BuildId, missed: bool)
    requires Inv(s) && Decided(s, b, missed) && OnTrack(s, b) && ParentStays(s, b)
    requires p in s.procs && s.procs[p].build == b && b in s.builds
    ensures !MissesParent(s, b, s.procs[p].at)
  {
    var at := s.procs[p].at;
    assert Served(s, b, at) && ShapeOk(s, b, at, missed);
    match at
    case Replaying(Generate(_), Base(_, parent, BaseRow)) => assert Needed(s, b);
    case Replaying(Generate(_), Base(_, parent, BaseGet(key))) => assert RowOk(s, parent);
    case _ =>
  }

  /** An uploaded row cannot be replaced by another uploaded row in one call. */
  lemma UploadedRowStays(s: State, p: Pid, ok: bool, pick: Format, b: BuildId)
    requires Inv(s) && p in s.procs && UploadedRow(s, b) && UploadedRow(Write(s, p, ok, pick), b)
    ensures Write(s, p, ok, pick).arch[b] == s.arch[b]
  {
    WriteRow(s, p, ok, pick);
    if s.procs[p].build == b && WritesRow(s.procs[p].at) { WrittenRowIsCold(s, p, ok, pick, b); }
  }

  lemma EnsureColdens(s: State, p: Pid, b: BuildId, pc: EnsurePc, ok: bool)
    requires EnsureLocal(s, b, pc) && UploadedRow(s, b)
    ensures WriteEnsure(s, p, b, pc, ok).arch == s.arch || !UploadedRow(WriteEnsure(s, p, b, pc, ok), b)
  {
  }

  lemma ReplayersRowIsCold(s: State, p: Pid, b: BuildId, job: Job)
    requires JobOk(s, p, b, job)
    ensures !UploadedRow(s, b)
  {
  }

  lemma EvictColdens(s: State, p: Pid, b: BuildId, pc: EvictPc, ok: bool)
    requires EvictLocal(s, b, pc) && UploadedRow(s, b)
    ensures WriteEvict(s, p, b, pc, ok).arch == s.arch || !UploadedRow(WriteEvict(s, p, b, pc, ok), b)
  {
  }

  lemma WrittenRowIsCold(s: State, p: Pid, ok: bool, pick: Format, b: BuildId)
    requires Inv(s) && p in s.procs && s.procs[p].build == b && WritesRow(s.procs[p].at) && UploadedRow(s, b)
    ensures Write(s, p, ok, pick).arch == s.arch || !UploadedRow(Write(s, p, ok, pick), b)
  {
    var at := s.procs[p].at;
    assert LocalOk(s, p, b, at) by { assert ProcOk(s, p, s.procs[p]); }
    if at.Ensuring? { EnsureColdens(s, p, b, at.ensurePc, ok); }
    else if at.Replaying? { ReplayersRowIsCold(s, p, b, at.job); }
    else { EvictColdens(s, p, b, at.evictPc, ok); }
  }

  /** An uploaded row of b's parent is the same before and after. */
  ghost predicate SameParentRow(s: State, s': State, b: BuildId) {
    HasParent(s, b) && UploadedRow(s, s.builds[b].parent.value) ==>
      s.builds[b].parent.value in s'.arch && s'.arch[s.builds[b].parent.value] == s.arch[s.builds[b].parent.value]
  }

  lemma StepKeepsParentRow(s: State, p: Pid, ok: bool, pick: Format, b: BuildId)
    requires Inv(s) && p in s.procs && ParentStays(Act(s, p, ok, pick), b) && Needed(Act(s, p, ok, pick), b)
    ensures SameParentRow(s, Act(s, p, ok, pick), b)
  {
    ActIsWrite(s, p, ok, pick);
    WriteFrame(s, p, ok, pick);
    if HasParent(s, b) && UploadedRow(s, s.builds[b].parent.value) {
      UploadedRowStays(s, p, ok, pick, s.builds[b].parent.value);
    }
  }

  // ---------- one event ----------

  /** The helper's next call goes on to the answer. */
  lemma HelperAnswers(s: State, q: Pid, pick: Format, parent: BuildId)
    requires Inv(s) && q in s.procs && s.procs[q].build == parent && Answering(s, parent, s.procs[q].at)
    requires UploadedRow(s, parent)
    ensures Write(s, q, true, pick).arch == s.arch
    ensures After(s, q, true, pick).Some? && Answering(s, parent, After(s, q, true, pick).value)
  {
    assert RowOk(s, parent);
  }

  lemma CheckServes(s: State, b: BuildId, pc: CheckPc, ok: bool)
    requires Served(s, b, Checking(pc)) && AfterCheck(s, b, pc, ok).Some?
    ensures Served(s, b, AfterCheck(s, b, pc, ok).value)
  {
  }

  lemma ReplayServes(s: State, b: BuildId, job: Job, pc: ReplayPc, ok: bool, pick: Format)
    requires OwnLink(s, b, pc)
    ensures Served(s, b, AfterReplay(s, b, job, pc, ok, pick))
  {
  }

  /** A process that goes on to wait or to fetch the archive has just looked. */
  lemma CallServes(s: State, p: Pid, ok: bool, pick: Format, b: BuildId)
    requires p in s.procs && s.procs[p].build == b && Served(s, b, s.procs[p].at) && After(s, p, ok, pick).Some?
    requires ShapeOk(s, b, s.procs[p].at, false)
    ensures Served(s, b, After(s, p, ok, pick).value)
  {
    var at := s.procs[p].at;
    if at.Checking? { CheckServes(s, b, at.checkPc, ok); }
    else if at.Replaying? && at.job.Generate? { ReplayServes(s, b, at.job, at.replayPc, ok, pick); }
    else { OthersNeverFetch(s, p, ok, pick); }
  }

  lemma OthersNeverFetch(s: State, p: Pid, ok: bool, pick: Format)
    requires p in s.procs && !Working(s.procs[p].at) && After(s, p, ok, pick).Some?
    ensures !NeedsParent(After(s, p, ok, pick).value)
  {
    match s.procs[p].at
    case Evicting(_) =>
    case _ =>
  }

  lemma ServedStays(s: State, s': State, b: BuildId, at: Pc)
    requires Served(s, b, at) && ShapeOk(s, b, at, false) && SameParentRow(s, s', b)
    requires b in s.builds ==> b in s'.builds && s'.builds[b] == s.builds[b]
    requires forall q | AwaitsHelper(at, q) :: q in s'.procs && (q in s.procs ==> s'.procs[q] == s.procs[q])
    ensures Served(s', b, at)
  {
  }

  lemma HelperMoves(s: State, q: Pid, pick: Format, b: BuildId, at: Pc)
    requires Inv(s) && q in s.procs && AwaitsHelper(at, q) && Served(s, b, at)
    requires UploadedRow(s, s.procs[q].build)
    ensures Served(Act(s, q, true, pick), b, at)
  {
    var parent := s.procs[q].build;
    HelperAnswers(s, q, pick, parent);
    ActIsWrite(s, q, true, pick);
    WriteFrame(s, q, true, pick);
    OwnMove(s, q, true, pick);
  }

  /** What a step of p leaves of what the generations of b know. */
  ghost predicate StepFits(s: State, p: Pid, ok: bool, pick: Format, b: BuildId)
    requires p in s.procs
  {
    && Inv(s) && Decided(s, b, false) && OnTrack(s, b) && ParentStays(s, b) && b in s.builds
    && (Helps(s, p, b) ==> ok) && ParentStays(Act(s, p, ok, pick), b)
  }

  lemma OwnStepServes(s: State, p: Pid, ok: bool, pick: Format, b: BuildId)
    requires p in s.procs && StepFits(s, p, ok, pick, b)
    requires p in Act(s, p, ok, pick).procs && s.procs[p].build == b && NeedsParent(Act(s, p, ok, pick).procs[p].at)
    ensures Served(Act(s, p, ok, pick), b, Act(s, p, ok, pick).procs[p].at)
  {
    var s' := Act(s, p, ok, pick);
    OwnMove(s, p, ok, pick);
    assert Needed(s', b);
    StepKeepsParentRow(s, p, ok, pick, b);
    assert Served(s, b, s.procs[p].at);
    CallServes(s, p, ok, pick, b);
    var at := After(s, p, ok, pick).value;
    OwnStepStays(s, p, ok, pick, b, at);
  }

  lemma OwnStepStays(s: State, p: Pid, ok: bool, pick: Format, b: BuildId, at: Pc)
    requires p in s.procs && s.procs[p].build == b && b in s.builds && ShapeOk(s, b, s.procs[p].at, false)
    requires After(s, p, ok, pick) == Some(at) && Served(s, b, s.procs[p].at) && Served(s, b, at)
    requires SameParentRow(s, Act(s, p, ok, pick), b)
    ensures Served(Act(s, p, ok, pick), b, at)
  {
    ActIsWrite(s, p, ok, pick);
    WriteFrame(s, p, ok, pick);
  }

  lemma OtherStepServes(s: State, p: Pid, ok: bool, pick: Format, b: BuildId, r: Pid)
    requires p in s.procs && StepFits(s, p, ok, pick, b) && r in s.procs && s.procs[r].build == b && r != p
    requires NeedsParent(s.procs[r].at)
    ensures Served(Act(s, p, ok, pick), b, s.procs[r].at)
  {
    var s', at := Act(s, p, ok, pick), s.procs[r].at;
    assert Served(s, b, at) && ShapeOk(s, b, at, false) && Needed(s, b);
    if AwaitsHelper(at, p) {
      assert Helps(s, p, b);
      HelperMoves(s, p, pick, b, at);
    } else {
      ActIsWrite(s, p, ok, pick);
      WriteFrame(s, p, ok, pick);
      assert Needed(s', b) by { assert s'.procs[r] == s.procs[r]; }
      StepKeepsParentRow(s, p, ok, pick, b);
      ServedStays(s, s', b, at);
    }
  }

  lemma StepTracks(s: State, p: Pid, ok: bool, pick: Format, b: BuildId)
    requires p in s.procs && StepFits(s, p, ok, pick, b)
    ensures OnTrack(Act(s, p, ok, pick), b)
  {
    var s' := Act(s, p, ok, pick);
    ActIsWrite(s, p, ok, pick);
    forall r | r in s'.procs && s'.procs[r].build == b ensures Served(s', b, s'.procs[r].at) {
      if NeedsParent(s'.procs[r].at) {
        if r == p { OwnMove(s, p, ok, pick); OwnStepServes(s, p, ok, pick, b); }
        else { OtherStepServes(s, p, ok, pick, b, r); }
      }
    }
  }

  /** Events that are no step leave the helper alone. */
  lemma HelperIsSpared(s: State, e: Event, b: BuildId, r: Pid)
    requires Enabled(s, e) && !e.Step? && Attended(s, e, b) && r in s.procs && s.procs[r].build == b
    requires s.procs[r].at.Checking? && s.procs[r].at.checkPc.AwaitParent? && Served(s, b, s.procs[r].at)
    ensures var q := s.procs[r].at.checkPc.helper; q in Do(s, e).procs && Do(s, e).procs[q] == s.procs[q]
  {
    var q := s.procs[r].at.checkPc.helper;
    assert AwaitsHelper(s.procs[r].at, q) && Helps(s, q, b);
  }

  lemma SparedServes(s: State, e: Event, b: BuildId, r: Pid)
    requires Lineage(s) && OnTrack(s, b) && Enabled(s, e) && !e.Step? && Attended(s, e, b) && b in s.builds
    requires r in s.procs && s.procs[r].build == b
    ensures Served(Do(s, e), b, s.procs[r].at)
  {
    var s' := Do(s, e);
    assert s'.arch == s.arch && (e.InsertBuild? || s'.builds == s.builds) by { OtherEffect(s, e); }
    assert b in s'.builds && s'.builds[b] == s.builds[b] by {
      if e.InsertBuild? { InsertBuildGrowth(s, s', e.pid, e.build); }
    }
    assert Served(s, b, s.procs[r].at);
    if s.procs[r].at.Checking? && s.procs[r].at.checkPc.AwaitParent? { HelperIsSpared(s, e, b, r); }
  }

  /** A nested request begins with its first call. */
  lemma OtherServes(s: State, e: Event, b: BuildId, r: Pid)
    requires Lineage(s) && OnTrack(s, b) && Enabled(s, e) && !e.Step? && Attended(s, e, b) && b in s.builds
    requires r in Do(s, e).procs && Do(s, e).procs[r].build == b
    ensures Served(Do(s, e), b, Do(s, e).procs[r].at)
  {
    OtherEffect(s, e);
    if r in s.procs && Do(s, e).procs[r] == s.procs[r] { SparedServes(s, e, b, r); }
    else if e.Nest? { assert Do(s, e).builds == s.builds; }
  }

  lemma EventTracks(s: State, e: Event, b: BuildId)
    requires Inv(s) && Decided(s, b, false) && OnTrack(s, b) && ParentStays(s, b)
    requires Enabled(s, e) && Attended(s, e, b) && ParentStays(Do(s, e), b)
    ensures OnTrack(Do(s, e), b) && !Misses(s, e, b)
  {
    if b !in s.builds { NewBuildsTrack(s, e, b); }
    else if e.Step? {
      StepTracks(s, e.pid, e.ok, e.pick, b);
      if s.procs[e.pid].build == b { FetchIsAnswered(s, e.pid, b, false); }
    } else {
      forall r | r in Do(s, e).procs && Do(s, e).procs[r].build == b ensures Served(Do(s, e), b, Do(s, e).procs[r].at) {
        OtherServes(s, e, b, r);
      }
    }
  }

  /** Only a claimed build is being generated. */
  lemma NeededIsClaimed(s: State, p: Pid, b: BuildId)
    requires Inv(s) && p in s.procs && s.procs[p].build == b && NeedsParent(s.procs[p].at)
    ensures b in s.builds && s.status[b] == Processing
  {
    assert ProcOk(s, p, s.procs[p]);
  }

  lemma NewBuildsTrack(s: State, e: Event, b: BuildId)
    requires Inv(s) && Enabled(s, e) && b !in s.builds
    ensures OnTrack(Do(s, e), b) && !Misses(s, e, b)
  {
    var s' := Do(s, e);
    EventKeeps(s, e);
    forall r | r in s'.procs && s'.procs[r].build == b ensures Served(s', b, s'.procs[r].at) {
      if NeedsParent(s'.procs[r].at) {
        NeededIsClaimed(s', r, b);
        NewBuildsAreStarted(s, e, b);
      }
    }
    if e.Step? && NeedsParent(s.procs[e.pid].at) && s.procs[e.pid].build == b { NeededIsClaimed(s, e.pid, b); }
  }

  lemma NewBuildsAreStarted(s: State, e: Event, b: BuildId)
    requires Inv(s) && Enabled(s, e) && b !in s.builds && b in Do(s, e).builds
    ensures b in Do(s, e).status && Do(s, e).status[b] == Started
  {
    if e.Step? {
      ActIsWrite(s, e.pid, e.ok, e.pick);
      WriteFrame(s, e.pid, e.ok, e.pick);
    } else {
      OtherEffect(s, e);
    }
  }

  // ---------- the results ----------

  lemma NextTracks(states: seq<State>, events: seq<Event>, i: nat, b: BuildId)
    requires SmoothRun(states, events, b) && i < |events| && Attended(states[i], events[i], b)
    requires OnTrack(states[i], b) && !Missed(states, events, i, b)
    requires ParentStays(states[i], b) && ParentStays(states[i + 1], b)
    ensures OnTrack(states[i + 1], b) && !Missed(states, events, i + 1, b)
  {
    RunKeeps(states, events, i);
    SmoothRunDecides(states, events, i, b);
    assert TransitionAt(states, events, i);
    EventTracks(states[i], events[i], b);
  }

  /** If the nested request is attended to and the parent's row stays uploaded until
      its archive has been fetched, the generation does not miss it. */
  lemma {:induction false} StayingParentIsFound(states: seq<State>, events: seq<Event>, n: nat, b: BuildId)
    requires SmoothRun(states, events, b) && n < |states|
    requires forall i: nat | i < n :: Attended(states[i], events[i], b)
    requires forall i: nat | i <= n :: ParentStays(states[i], b)
    ensures OnTrack(states[n], b) && !Missed(states, events, n, b)
  {
    if n > 0 {
      StayingParentIsFound(states, events, n - 1, b);
      NextTracks(states, events, n - 1, b);
    }
  }

  /** Then the build is completed exactly when its patch matches and applies. */
  lemma StayingParentDecides(states: seq<State>, events: seq<Event>, n: nat, b: BuildId)
    requires SmoothRun(states, events, b) && n < |states|
    requires forall i: nat | i < n :: Attended(states[i], events[i], b)
    requires forall i: nat | i <= n :: ParentStays(states[i], b)
    requires FilesReady(states[n].files, b) && forall p :: !WorksOn(states[n], p, b)
    ensures Ended(states[n], b, LinkChecked(states[n].builds, states[n].files, b))
  {
    StayingParentIsFound(states, events, n, b);
    FinalizersDecide(states, events, n, b);
  }

  /** While a generation of b needs its parent's archive, the parent leads its channel. */
  ghost predicate ParentLeads(s: State, b: BuildId) {
    Needed(s, b) && HasParent(s, b) ==> IsHead(s, s.builds[b].parent.value)
  }

  /** In careful and settled runs that is the case for every build whose parent is still
      the head when it is generated. */
  lemma HeadParentDecides(states: seq<State>, events: seq<Event>, n: nat, b: BuildId)
    requires SmoothRun(states, events, b) && n < |states|
    requires RunObeys(Careful(), states, events) && SettledRun(states, events)
    requires forall i: nat | i < n :: Attended(states[i], events[i], b)
    requires forall i: nat | i <= n :: ParentLeads(states[i], b)
    requires FilesReady(states[n].files, b) && forall p :: !WorksOn(states[n], p, b)
    ensures Ended(states[n], b, LinkChecked(states[n].builds, states[n].files, b))
  {
    forall i: nat | i <= n ensures ParentStays(states[i], b) {
      assert ParentLeads(states[i], b);
      if Needed(states[i], b) && HasParent(states[i], b) {
        HeadsAreWarm(states, events, i, states[i].builds[b].parent.value);
      }
    }
    StayingParentDecides(states, events, n, b);
  }

  // ---------- nothing is read before the answer ----------

  ghost predicate Generates(s: State, p: Pid, b: BuildId, x: BuildId) {
    && p in s.procs && s.procs[p].build == b && s.procs[p].at.Replaying? && s.procs[p].at.job.Generate?
    && b in s.builds && s.builds[b].parent == Some(x)
  }

  /** p waits for a request for x that has been answered with this key. */
  predicate HasAnswer(s: State, p: Pid, q: Pid, x: BuildId, key: Key) {
    p in s.procs && AwaitsHelper(s.procs[p].at, q) && IsAt(s, q, x, Returned(Some(key)))
  }

  /** The key held exactly the tree of x at an instant of the request. */
  ghost predicate AnsweredAt(states: seq<State>, i: nat, p: Pid, x: BuildId)
    requires i < |states|
  {
    exists q, key, k: nat :: k < i && HasAnswer(states[i], p, q, x, key) && ServedDuring(states, k, i, q, x, key)
  }

  lemma CheckBegins(s: State, b: BuildId, pc: CheckPc, ok: bool, x: BuildId)
    requires b in s.builds && s.builds[b].parent == Some(x) && AfterCheck(s, b, pc, ok).Some?
    requires AfterCheck(s, b, pc, ok).value.Replaying?
    ensures pc.AwaitParent? && pc.helper in s.procs && s.procs[pc.helper].build == x
    ensures s.procs[pc.helper].at.Returned? && s.procs[pc.helper].at.result.Some?
  {
  }

  lemma StepBegins(s: State, p: Pid, ok: bool, pick: Format, b: BuildId, x: BuildId)
    requires p in s.procs && Generates(Act(s, p, ok, pick), p, b, x)
    ensures Generates(s, p, b, x) || (s.procs[p].build == b && exists q, key :: HasAnswer(s, p, q, x, key))
  {
    ActIsWrite(s, p, ok, pick);
    WriteFrame(s, p, ok, pick);
    OwnMove(s, p, ok, pick);
    match s.procs[p].at
    case Checking(pc) =>
      CheckBegins(s, b, pc, ok, x);
      assert HasAnswer(s, p, pc.helper, x, s.procs[pc.helper].at.result.value);
    case Evicting(_) =>
    case _ =>
  }

  lemma EventBegins(s: State, e: Event, p: Pid, b: BuildId, x: BuildId)
    requires Inv(s) && Enabled(s, e) && Generates(Do(s, e), p, b, x)
    ensures Generates(s, p, b, x) || (exists q, key :: HasAnswer(s, p, q, x, key))
  {
    if e.Step? {
      ActIsWrite(s, e.pid, e.ok, e.pick);
      WriteFrame(s, e.pid, e.ok, e.pick);
      if e.pid == p { StepBegins(s, p, e.ok, e.pick, b, x); }
    } else {
      OtherBegins(s, e, p, b, x);
    }
  }

  lemma OtherBegins(s: State, e: Event, p: Pid, b: BuildId, x: BuildId)
    requires Inv(s) && Enabled(s, e) && !e.Step? && Generates(Do(s, e), p, b, x)
    ensures Generates(s, p, b, x)
  {
    assert p in s.procs && Do(s, e).procs[p] == s.procs[p] by { OtherEffect(s, e); }
    assert b in s.builds by { assert ProcOk(s, p, s.procs[p]); }
    EventMovesForward(s, e, b);
  }

  /** A generation on top of x does nothing before its nested request was answered with a
      path that held exactly the tree of x at an instant of the request. */
  lemma {:induction false} NothingIsReadUnanswered(states: seq<State>, events: seq<Event>, n: nat, p: Pid, b: BuildId,
                                                   x: BuildId)
    requires IsRun(states, events) && n < |states| && Generates(states[n], p, b, x)
    ensures exists i: nat :: i < n && AnsweredAt(states, i, p, x)
  {
    assert n > 0;
    RunKeeps(states, events, n - 1);
    assert TransitionAt(states, events, n - 1);
    EventBegins(states[n - 1], events[n - 1], p, b, x);
    if Generates(states[n - 1], p, b, x) {
      NothingIsReadUnanswered(states, events, n - 1, p, b, x);
    } else {
      var q, key :| HasAnswer(states[n - 1], p, q, x, key);
      AnswersHeldTheTree(states, events, n - 1, q, x, key);
      assert AnsweredAt(states, n - 1, p, x);
    }
  }
}
