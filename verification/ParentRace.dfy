/** The race for a parent's archive: after its nested request was answered, a generation
    misses the archive when an eviction that is past its guards writes its mark
    first. The general case, and a run from the empty server that comes to it. */
module ParentRace {
  import opened Records
  import opened Trees
  import opened Server
  import opened ServerInvariant
  import opened ServerRuns
  import opened ServerEffects
  import opened ServerSafety
  import opened ServerCaching
  import opened ServerHeads
  import opened ServerFinalize
  import opened Races

  /** Process m has marked the archive of build x for eviction. */
  function Overtaken(s: State, m: Pid, x: BuildId, row: ArchiveRow): State {
    At(UpdateRow(s, x, MarkedRow(row)).(log := s.log.(marks := s.log.marks + multiset{x})), m, x,
       Evicting(DeleteObject(MarkedRow(row))))
  }

  /** The check made by p has failed build b. */
  function FailedBy(s: State, p: Pid, b: BuildId): State {
    s.(status := s.status[b := Failed], procs := s.procs - {p})
  }

  /** p generates b on top of x and has its answer; m is past its guards with x. */
  ghost predicate RacesFor(s: State, p: Pid, b: BuildId, q: Pid, x: BuildId, m: Pid, row: ArchiveRow) {
    && KnownBuild(s, b) && s.builds[b].parent == Some(x) && x in s.arch && p != m && q != m
    && IsAt(s, p, b, Checking(AwaitParent(1, q)))
    && q in s.procs && s.procs[q].build == x && s.procs[q].at.Returned? && s.procs[q].at.result.Some?
    && IsAt(s, m, x, Evicting(EvictMark(row)))
  }

  lemma MarkIsFirst(origin: State, s: State, p: Pid, b: BuildId, q: Pid, x: BuildId, m: Pid, row: ArchiveRow)
    requires Leads(SmoothEvents(b), origin, s) && RacesFor(s, p, b, q, x, m, row)
    ensures Leads(SmoothEvents(b), origin, Overtaken(s, m, x, row))
  {
    EvictStepLeads(SmoothEvents(b), origin, s, m, x, EvictMark(row), true);
    MovesAt(UpdateRow(s, x, MarkedRow(row)).(log := s.log.(marks := s.log.marks + multiset{x})), m, x,
            Evicting(EvictMark(row)), Evicting(DeleteObject(MarkedRow(row))));
  }

  /** From the answer to the failed build. */
  lemma ColdParentFails(origin: State, s: State, p: Pid, b: BuildId, q: Pid, x: BuildId)
    requires Leads(SmoothEvents(b), origin, s) && KnownBuild(s, b) && s.builds[b].parent == Some(x)
    requires !UploadedRow(s, x) && IsAt(s, p, b, Checking(AwaitParent(1, q)))
    requires q in s.procs && s.procs[q].build == x && s.procs[q].at.Returned? && s.procs[q].at.result.Some?
    ensures Leads(SmoothEvents(b), origin, FailedBy(s, p, b))
  {
    var reading := Replaying(Generate(1), Base([b], x, BaseRow));
    CheckStepLeads(SmoothEvents(b), origin, s, p, b, AwaitParent(1, q), true);
    assert Move(s, p, b, Some(reading)) == At(s, p, b, reading);
    ReplayStepLeads(SmoothEvents(b), origin, At(s, p, b, reading), p, b, Generate(1), Base([b], x, BaseRow), true, Zip);
    MovesAt(s, p, b, reading, Checking(FailGeneration));
    GenerationFails(origin, s, p, b);
  }

  lemma GenerationFails(origin: State, s: State, p: Pid, b: BuildId)
    requires Leads(SmoothEvents(b), origin, At(s, p, b, Checking(FailGeneration))) && KnownBuild(s, b)
    ensures Leads(SmoothEvents(b), origin, FailedBy(s, p, b))
  {
    CheckStepLeads(SmoothEvents(b), origin, At(s, p, b, Checking(FailGeneration)), p, b, FailGeneration, true);
    assert At(s, p, b, Checking(FailGeneration)).procs - {p} == s.procs - {p};
  }

  /** Whenever a generation that has its answer races with an eviction past its guards,
      the build may end up failed, although all calls succeed. */
  lemma MarkFailsGeneration(origin: State, s: State, p: Pid, b: BuildId, q: Pid, x: BuildId, m: Pid, row: ArchiveRow)
    requires Leads(SmoothEvents(b), origin, s) && RacesFor(s, p, b, q, x, m, row)
    ensures Leads(SmoothEvents(b), origin, FailedBy(Overtaken(s, m, x, row), p, b))
  {
    MarkIsFirst(origin, s, p, b, q, x, m, row);
    ColdParentFails(origin, Overtaken(s, m, x, row), p, b, q, x);
  }

  // ---------- what happens before a build exists is smooth for it ----------

  lemma UnbornBefore(states: seq<State>, events: seq<Event>, i: nat, n: nat, b: BuildId)
    requires IsRun(states, events) && i <= n < |states| && b !in states[n].builds
    ensures Lineage(states[i]) && b !in states[i].builds
  {
    RunKeeps(states, events, i);
    BuildsMoveForward(states, events, i, n, b);
  }

  lemma StaysUnborn(s: State, e: Event, b: BuildId)
    requires Lineage(s) && Enabled(s, e) && b !in s.builds && forall p :: !WorksOn(s, p, b)
    ensures forall p :: !WorksOn(Do(s, e), p, b)
  {
    if e.Step? {
      ActIsWrite(s, e.pid, e.ok, e.pick);
      forall p ensures !WorksOn(Do(s, e), p, b) {
        if p == e.pid && p in Do(s, e).procs {
          OwnMove(s, p, e.ok, e.pick);
          if s.procs[p].build == b { StaysIdle(s, p, e.ok, e.pick, b); }
        } else {
          assert !WorksOn(s, p, b);
        }
      }
    } else {
      forall p ensures !WorksOn(Do(s, e), p, b) { if WorksOn(Do(s, e), p, b) { StartsOnKnown(s, e, p, b); } }
    }
  }

  lemma StartsOnKnown(s: State, e: Event, p: Pid, b: BuildId)
    requires Lineage(s) && Enabled(s, e) && !e.Step? && WorksOn(Do(s, e), p, b)
    ensures WorksOn(s, p, b) || b in s.builds
  {
  }

  lemma {:induction false} UnbornIsIdle(states: seq<State>, events: seq<Event>, n: nat, b: BuildId)
    requires IsRun(states, events) && n < |states| && b !in states[n].builds
    ensures forall p :: !WorksOn(states[n], p, b)
  {
    if n > 0 {
      UnbornBefore(states, events, n - 1, n, b);
      UnbornIsIdle(states, events, n - 1, b);
      assert TransitionAt(states, events, n - 1);
      StaysUnborn(states[n - 1], events[n - 1], b);
    }
  }

  lemma UnbornIsSmooth(s: State, b: BuildId)
    requires Reachable(s) && b !in s.builds
    ensures Leads(SmoothEvents(b), Init(), s)
  {
    var states, events :| RunBy(AnyEvent(), states, events) && states[0] == Init() && states[|events|] == s;
    RunByIsRun(AnyEvent(), states, events);
    forall i: nat | i < |events| ensures StepBy(SmoothEvents(b), states, events, i) {
      UnbornBefore(states, events, i, |events|, b);
      UnbornIsIdle(states, events, i, b);
      assert TransitionAt(states, events, i);
    }
    assert RunBy(SmoothEvents(b), states, events);
  }

  // ---------- a build is pushed on top of the head ----------

  /** Build b on top of x, the head of its channel. */
  function Pushed(s: State, b: BuildId, x: BuildId, channel: Channel, status: BuildState, files: Files): State {
    s.(builds := s.builds[b := Build(channel, Some(x))], status := s.status[b := status], files := s.files[b := files])
  }

  /** b is a fresh id and x the head of the channel. */
  ghost predicate CanPush(s: State, b: BuildId, x: BuildId, channel: Channel) {
    Reachable(s) && channel in s.heads && s.heads[channel] == Some(x) && forall y | y in s.builds :: y < b
  }

  lemma RowIsInserted(s: State, b: BuildId, x: BuildId, channel: Channel, p: Pid)
    requires CanPush(s, b, x, channel) && Idle(s, p)
    ensures Leads(SmoothEvents(b), Init(), Pushed(s, b, x, channel, Started, Files(Missing, Missing)))
  {
    UnbornIsSmooth(s, b);
    LeadsNext(SmoothEvents(b), Init(), s, ReadHead(p, channel));
    var reading := s.(pending := s.pending[p := PendingBuild(channel, Some(x))]);
    LeadsNext(SmoothEvents(b), Init(), reading, InsertBuild(p, b));
    assert reading.pending - {p} == s.pending;
  }

  lemma FilesAre(s: State, b: BuildId, x: BuildId, channel: Channel, files: Files, files': Files)
    ensures SetFiles(Pushed(s, b, x, channel, Started, files), b, files') == Pushed(s, b, x, channel, Started, files')
  {
    assert s.files[b := files][b := files'] == s.files[b := files'];
  }

  lemma FilesAreOpened(s: State, b: BuildId, x: BuildId, channel: Channel, p: Pid)
    requires CanPush(s, b, x, channel) && Idle(s, p)
    ensures Leads(SmoothEvents(b), Init(), Pushed(s, b, x, channel, Started, Files(Uploading, Uploading)))
  {
    RowIsInserted(s, b, x, channel, p);
    var s0 := Pushed(s, b, x, channel, Started, Files(Missing, Missing));
    LeadsNext(SmoothEvents(b), Init(), s0, OpenPatch(b));
    FilesAre(s, b, x, channel, Files(Missing, Missing), Files(Uploading, Missing));
    var s1 := Pushed(s, b, x, channel, Started, Files(Uploading, Missing));
    LeadsNext(SmoothEvents(b), Init(), s1, OpenSignature(b));
    FilesAre(s, b, x, channel, Files(Uploading, Missing), Files(Uploading, Uploading));
  }

  function Both(patch: Patch, signature: Container): Files {
    Files(Ready(patch, 1), Ready(signature, 1))
  }

  lemma PatchIsFinalized(s: State, b: BuildId, x: BuildId, channel: Channel, patch: Patch, p: Pid)
    requires CanPush(s, b, x, channel) && Idle(s, p)
    ensures Leads(SmoothEvents(b), Init(), At(Pushed(s, b, x, channel, Started, Files(Ready(patch, 1), Uploading)),
                                              p, b, Checking(CheckBuild(1))))
  {
    FilesAreOpened(s, b, x, channel, p);
    var s0 := Pushed(s, b, x, channel, Started, Files(Uploading, Uploading));
    LeadsNext(SmoothEvents(b), Init(), s0, FinalizePatch(p, b, patch, 1));
    FilesAre(s, b, x, channel, Files(Uploading, Uploading), Files(Ready(patch, 1), Uploading));
  }

  /** The second finalizer's check has only begun. */
  function Second(s: State, b: BuildId, x: BuildId, channel: Channel, status: BuildState, files: Files, p': Pid): State
  {
    At(Pushed(s, b, x, channel, status, files), p', b, Checking(CheckBuild(1)))
  }

  lemma BothAreFinalized(s: State, b: BuildId, x: BuildId, channel: Channel, patch: Patch, signature: Container,
                         p: Pid, p': Pid)
    requires CanPush(s, b, x, channel) && Idle(s, p) && Idle(s, p') && p != p'
    ensures Leads(SmoothEvents(b), Init(), At(Second(s, b, x, channel, Started, Both(patch, signature), p'), p, b,
                                              Checking(CheckBuild(1))))
  {
    PatchIsFinalized(s, b, x, channel, patch, p);
    var s0 := Pushed(s, b, x, channel, Started, Files(Ready(patch, 1), Uploading));
    var s1 := At(s0, p, b, Checking(CheckBuild(1)));
    LeadsNext(SmoothEvents(b), Init(), s1, FinalizeSignature(p', b, signature, 1));
    FilesAre(s, b, x, channel, Files(Ready(patch, 1), Uploading), Both(patch, signature));
    AtBoth(Pushed(s, b, x, channel, Started, Both(patch, signature)), p, p', b, Checking(CheckBuild(1)),
           Checking(CheckBuild(1)));
  }

  lemma AtBoth(s: State, p: Pid, p': Pid, b: BuildId, at: Pc, at': Pc)
    requires p != p'
    ensures At(At(s, p, b, at), p', b, at') == At(At(s, p', b, at'), p, b, at)
  {
    assert s.procs[p := Proc(b, at)][p' := Proc(b, at')] == s.procs[p' := Proc(b, at')][p := Proc(b, at)];
  }

  // ---------- its generation asks for the parent's archive ----------

  /** p is the first of the two checks. */
  lemma CheckComesToClaim(s: State, p: Pid, b: BuildId)
    requires KnownBuild(s, b) && s.status[b] == Started && Positive(s.files[b].patch) && Positive(s.files[b].signature)
    requires b !in s.arch && Leads(SmoothEvents(b), Init(), At(s, p, b, Checking(CheckBuild(1))))
    ensures Leads(SmoothEvents(b), Init(), At(s, p, b, Checking(Claim(1))))
  {
    CheckStepLeads(SmoothEvents(b), Init(), At(s, p, b, Checking(CheckBuild(1))), p, b, CheckBuild(1), true);
    MovesAt(s, p, b, Checking(CheckBuild(1)), Checking(CheckFiles(1, Started)));
    var next := At(s, p, b, Checking(CheckFiles(1, Started)));
    CheckStepLeads(SmoothEvents(b), Init(), next, p, b, CheckFiles(1, Started), true);
    MovesAt(s, p, b, Checking(CheckFiles(1, Started)), Checking(Claim(1)));
  }

  /** The server after p's claim on b. */
  function ClaimedBy(s: State, p: Pid, b: BuildId): State {
    s.(status := s.status[b := Processing],
       log := s.log.(claims := s.log.claims + multiset{b}, claimant := s.log.claimant[b := p]))
  }

  lemma ClaimSucceeds(s: State, p: Pid, b: BuildId)
    requires KnownBuild(s, b) && s.status[b] == Started && s.builds[b].parent.Some?
    requires Leads(SmoothEvents(b), Init(), At(s, p, b, Checking(Claim(1))))
    ensures Leads(SmoothEvents(b), Init(), At(ClaimedBy(s, p, b), p, b, Checking(AskParent(1))))
  {
    CheckStepLeads(SmoothEvents(b), Init(), At(s, p, b, Checking(Claim(1))), p, b, Claim(1), true);
    MovesAt(ClaimedBy(s, p, b), p, b, Checking(Claim(1)), Checking(AskParent(1)));
  }

  /** p waits for q, which is at the given call of the request for x. */
  function Nested(s: State, p: Pid, b: BuildId, q: Pid, x: BuildId, at: Pc): State {
    At(At(s, p, b, Checking(AwaitParent(1, q))), q, x, at)
  }

  lemma RequestIsMade(s: State, p: Pid, b: BuildId, q: Pid, x: BuildId)
    requires b in s.builds && s.builds[b].parent == Some(x) && Idle(s, q) && p != q
    requires Leads(SmoothEvents(b), Init(), At(s, p, b, Checking(AskParent(1))))
    ensures Leads(SmoothEvents(b), Init(), Nested(s, p, b, q, x, Ensuring(WarmRow(false))))
  {
    LeadsNext(SmoothEvents(b), Init(), At(s, p, b, Checking(AskParent(1))), Nest(p, q));
    MovesAt(s, p, b, Checking(AskParent(1)), Checking(AwaitParent(1, q)));
  }

  /** The parent is warm, so the request is answered. */
  lemma RequestIsAnswered(s: State, p: Pid, b: BuildId, q: Pid, x: BuildId)
    requires Warm(s, x) && Leads(SmoothEvents(b), Init(), Nested(s, p, b, q, x, Ensuring(WarmRow(false))))
    ensures Leads(SmoothEvents(b), Init(), Nested(s, p, b, q, x, Returned(s.arch[x].path)))
  {
    var key, waiting := s.arch[x].path.value, At(s, p, b, Checking(AwaitParent(1, q)));
    EnsureStepLeads(SmoothEvents(b), Init(), Nested(s, p, b, q, x, Ensuring(WarmRow(false))), q, x,
                    WarmRow(false), true);
    MovesAt(waiting, q, x, Ensuring(WarmRow(false)), Ensuring(WarmHead(false, key)));
    EnsureStepLeads(SmoothEvents(b), Init(), Nested(s, p, b, q, x, Ensuring(WarmHead(false, key))), q, x,
                    WarmHead(false, key), true);
    MovesAt(waiting, q, x, Ensuring(WarmHead(false, key)), Returned(Some(key)));
  }

  /** From the first check to the answer. */
  lemma AnswerComes(s: State, p: Pid, b: BuildId, q: Pid, x: BuildId)
    requires KnownBuild(s, b) && s.status[b] == Started && Positive(s.files[b].patch) && Positive(s.files[b].signature)
    requires b !in s.arch && s.builds[b].parent == Some(x) && Warm(s, x) && Idle(s, q) && p != q
    requires Leads(SmoothEvents(b), Init(), At(s, p, b, Checking(CheckBuild(1))))
    ensures Leads(SmoothEvents(b), Init(), Nested(ClaimedBy(s, p, b), p, b, q, x, Returned(s.arch[x].path)))
  {
    CheckComesToClaim(s, p, b);
    ClaimSucceeds(s, p, b);
    RequestIsMade(ClaimedBy(s, p, b), p, b, q, x);
    RequestIsAnswered(ClaimedBy(s, p, b), p, b, q, x);
  }

  // ---------- and misses it ----------

  /** The second check finds the build failed and ends. */
  lemma SecondCheckEnds(s: State, p': Pid, b: BuildId)
    requires KnownBuild(s, b) && s.status[b] == Failed && IsAt(s, p', b, Checking(CheckBuild(1)))
    requires Leads(SmoothEvents(b), Init(), s)
    ensures Leads(SmoothEvents(b), Init(), s.(procs := s.procs - {p'}))
  {
    CheckStepLeads(SmoothEvents(b), Init(), s, p', b, CheckBuild(1), true);
  }

  /** All calls of the checks of b succeed, its nested request is answered, its patch
      matches and applies, and yet it ends failed. */
  ghost predicate FailsForParent(s: State, b: BuildId, q: Pid) {
    && FilesReady(s.files, b) && LinkChecked(s.builds, s.files, b) && b in s.status && s.status[b] == Failed
    && (forall p :: !WorksOn(s, p, b))
    && q in s.procs && s.procs[q].at.Returned? && s.procs[q].at.result.Some?
  }

  /** p generates the pushed build and has its answer. */
  function Answered(s: State, b: BuildId, x: BuildId, channel: Channel, patch: Patch, signature: Container,
                    p: Pid, p': Pid, q: Pid): State
    requires x in s.arch
  {
    Nested(ClaimedBy(Second(s, b, x, channel, Started, Both(patch, signature), p'), p, b), p, b, q, x,
           Returned(s.arch[x].path))
  }

  lemma HeadChildIsAnswered(s: State, b: BuildId, x: BuildId, channel: Channel, patch: Patch, signature: Container,
                            p: Pid, p': Pid, q: Pid)
    requires CanPush(s, b, x, channel) && UploadedRow(s, x)
    requires Idle(s, p) && Idle(s, p') && Idle(s, q) && p != p' && p != q && p' != q
    ensures Leads(SmoothEvents(b), Init(), Answered(s, b, x, channel, patch, signature, p, p', q))
  {
    BothAreFinalized(s, b, x, channel, patch, signature, p, p');
    ReachableKeeps(s);
    assert RowOk(s, x);
    AnswerComes(Second(s, b, x, channel, Started, Both(patch, signature), p'), p, b, q, x);
  }

  /** Then m's mark, the failed generation and the end of the second check. */
  function Fallen(s: State, b: BuildId, p: Pid, p': Pid, x: BuildId, m: Pid, row: ArchiveRow): State {
    var failed := FailedBy(Overtaken(s, m, x, row), p, b);
    failed.(procs := failed.procs - {p'})
  }

  lemma AnsweredFalls(s: State, b: BuildId, p: Pid, p': Pid, q: Pid, x: BuildId, m: Pid, row: ArchiveRow)
    requires Leads(SmoothEvents(b), Init(), s) && RacesFor(s, p, b, q, x, m, row)
    requires IsAt(s, p', b, Checking(CheckBuild(1))) && p' != p && p' != m
    ensures Leads(SmoothEvents(b), Init(), Fallen(s, b, p, p', x, m, row))
  {
    MarkFailsGeneration(Init(), s, p, b, q, x, m, row);
    SecondCheckEnds(FailedBy(Overtaken(s, m, x, row), p, b), p', b);
  }

  lemma FinalFails(s: State, s': State, b: BuildId, p: Pid, p': Pid, q: Pid, m: Pid)
    requires Reachable(s) && b !in s.builds
    requires FilesReady(s'.files, b) && LinkChecked(s'.builds, s'.files, b) && b in s'.status && s'.status[b] == Failed
    requires forall r | r in s'.procs ::
               r != p && r != p' && (r == q || r == m || (r in s.procs && s'.procs[r] == s.procs[r]))
    requires q in s'.procs && s'.procs[q].at.Returned? && s'.procs[q].at.result.Some?
    requires m in s'.procs && s'.procs[m].at.Evicting?
    ensures FailsForParent(s', b, q)
  {
    var states, events :| RunBy(AnyEvent(), states, events) && states[0] == Init() && states[|events|] == s;
    RunByIsRun(AnyEvent(), states, events);
    UnbornIsIdle(states, events, |events|, b);
    forall r ensures !WorksOn(s', r, b) { assert !WorksOn(s, r, b); }
  }

  lemma AnsweredRaces(s: State, b: BuildId, x: BuildId, channel: Channel, patch: Patch, signature: Container,
                      p: Pid, p': Pid, q: Pid, m: Pid, row: ArchiveRow)
    requires UploadedRow(s, x) && IsAt(s, m, x, Evicting(EvictMark(row)))
    requires p !in s.procs && p' !in s.procs && q !in s.procs && p != p' && p != q && p' != q
    ensures var s1 := Answered(s, b, x, channel, patch, signature, p, p', q);
            RacesFor(s1, p, b, q, x, m, row) && IsAt(s1, p', b, Checking(CheckBuild(1)))
  {
  }

  lemma FallenShape(s: State, b: BuildId, x: BuildId, channel: Channel, patch: Patch, signature: Container,
                    p: Pid, p': Pid, q: Pid, m: Pid, row: ArchiveRow)
    requires UploadedRow(s, x) && IsAt(s, m, x, Evicting(EvictMark(row)))
    requires p !in s.procs && p' !in s.procs && q !in s.procs && p != p' && p != q && p' != q
    ensures var s1 := Answered(s, b, x, channel, patch, signature, p, p', q);
            var s' := Fallen(s1, b, p, p', x, m, row);
            && (forall r | r in s'.procs ::
                  r != p && r != p' && (r == q || r == m || (r in s.procs && s'.procs[r] == s.procs[r])))
            && q in s'.procs && s'.procs[q] == Proc(x, Returned(s.arch[x].path))
            && m in s'.procs && s'.procs[m].at.Evicting?
            && s'.builds == s1.builds && s'.files == s1.files && b in s'.status && s'.status[b] == Failed
  {
  }

  /** Wherever an eviction of a channel's head is past its guards, a build that fits on
      top of the head can be pushed and fail. */
  lemma HeadRaceFailsChild(s: State, b: BuildId, x: BuildId, channel: Channel, patch: Patch, signature: Container,
                           p: Pid, p': Pid, q: Pid, m: Pid, row: ArchiveRow)
    requires CanPush(s, b, x, channel) && UploadedRow(s, x) && IsAt(s, m, x, Evicting(EvictMark(row)))
    requires Idle(s, p) && Idle(s, p') && Idle(s, q) && p != p' && p != q && p' != q
    requires var pushed := Pushed(s, b, x, channel, Started, Both(patch, signature));
             LinkChecked(pushed.builds, pushed.files, b)
    ensures exists s' :: Leads(SmoothEvents(b), Init(), s') && FailsForParent(s', b, q)
  {
    var s1 := Answered(s, b, x, channel, patch, signature, p, p', q);
    HeadChildIsAnswered(s, b, x, channel, patch, signature, p, p', q);
    AnsweredRaces(s, b, x, channel, patch, signature, p, p', q, m, row);
    AnsweredFalls(s1, b, p, p', q, x, m, row);
    FallenShape(s, b, x, channel, patch, signature, p, p', q, m, row);
    FinalFails(s, Fallen(s1, b, p, p', x, m, row), b, p, p', q, m);
  }

  /** It happens: build 1 is pushed on top of build 0 as the eviction of build 0 is
      about to be marked. */
  lemma ParentIsMissed()
    ensures exists states, events ::
              SmoothRun(states, events, 1) && FailsForParent(states[|events|], 1, 6)
              && Missed(states, events, |events|, 1)
  {
    AboutToEvictHead();
    var s := HeadMarked(EvictMark(ROW));
    LeadsAnyhow(Once(), Init(), s);
    HeadRaceFailsChild(s, 1, 0, CHANNEL, PATCH, EMPTY_CONTAINER, 4, 5, 6, 3, ROW);
    var s' :| Leads(SmoothEvents(1), Init(), s') && FailsForParent(s', 1, 6);
    var states, events :| RunBy(SmoothEvents(1), states, events) && states[0] == Init() && states[|events|] == s';
    RunByIsRun(SmoothEvents(1), states, events);
    FinalizersDecide(states, events, |events|, 1);
  }
}
