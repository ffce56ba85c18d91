/** What holds in every state of every run: exact archives, the parent forest,
    one generation per build, lock discipline, and what a request returns. */
module ServerSafety {
  import opened Records
  import opened Trees
  import opened Server
  import opened ServerInvariant
  import opened ServerRuns
  import opened ServerEffects

  // ---------- the cached form agrees with the simple form ----------

  /** An archive row in state uploaded points to a present object, packed in the
      format its path names, whose tree is the fold of every patch from the root. */
  lemma UploadedArchivesAreExact(states: seq<State>, events: seq<Event>, n: nat, b: BuildId)
    requires IsRun(states, events) && n < |states|
    requires b in states[n].arch && states[n].arch[b].state == Uploaded
    ensures var s := states[n];
            && s.arch[b].path.Some?
            && s.arch[b].path.value in s.objects
            && s.objects[s.arch[b].path.value].format == s.arch[b].path.value.format
            && Fold(s.builds, s.files, b) == Some(s.objects[s.arch[b].path.value].tree)
  {
    RunKeeps(states, events, n);
    var s := states[n];
    assert RowOk(s, b);
    assert ObjectOk(s, s.arch[b].path.value);
  }

  /** A build that has an archive row, as every completed build, was pushed whole: both
      files finalized and not empty, its patch made for its parent's tree or, of a root,
      for the empty one, and making the tree its own signature lists. */
  lemma ArchivedBuildsMatch(states: seq<State>, events: seq<Event>, n: nat, b: BuildId)
    requires IsRun(states, events) && n < |states|
    requires b in states[n].arch || (b in states[n].status && states[n].status[b] == Completed)
    ensures var s := states[n];
            && b in s.arch && b in s.builds && b in s.files && s.files[b].patch.Ready? && s.files[b].signature.Ready?
            && s.files[b].patch.size > 0 && s.files[b].signature.size > 0
            && s.files[b].patch.content.source == s.files[b].signature.content
            && match s.builds[b].parent
               case None => s.files[b].patch.content.target == map[]
               case Some(parent) =>
                 && parent in s.files && s.files[parent].signature.Ready?
                 && s.files[b].patch.content.target == s.files[parent].signature.content
  {
    RunKeeps(states, events, n);
    assert LifeOk(states[n], b);
  }

  /** An uploaded archive holds exactly the files its build's signature lists. */
  lemma ArchivesHoldSignedFiles(states: seq<State>, events: seq<Event>, n: nat, b: BuildId)
    requires IsRun(states, events) && n < |states|
    requires b in states[n].arch && states[n].arch[b].state == Uploaded
    ensures var s := states[n];
            && s.arch[b].path.Some? && s.arch[b].path.value in s.objects && b in s.files && s.files[b].signature.Ready?
            && s.objects[s.arch[b].path.value].tree.Keys == s.files[b].signature.content.Keys
  {
    UploadedArchivesAreExact(states, events, n, b);
    ArchivedBuildsMatch(states, events, n, b);
  }

  // ---------- the parent forest ----------

  /** A parent has a smaller id, the same upload and channel, and is completed,
      so walking parents ends and stays in one channel of one upload. */
  lemma ParentsAreCompletedElders(states: seq<State>, events: seq<Event>, n: nat, b: BuildId)
    requires IsRun(states, events) && n < |states|
    requires b in states[n].builds && states[n].builds[b].parent.Some?
    ensures var s := states[n];
            var parent := s.builds[b].parent.value;
            && parent < b && parent in s.builds
            && s.builds[parent].channel == s.builds[b].channel
            && parent in s.status && s.status[parent] == Completed
  {
    RunKeeps(states, events, n);
    assert BuildOk(states[n], b);
    assert LifeOk(states[n], states[n].builds[b].parent.value);
  }

  /** Already before the child's row is inserted the parent is completed. */
  lemma ChildrenComeAfterCompletion(states: seq<State>, events: seq<Event>, n: nat)
    requires IsRun(states, events) && n < |events| && events[n].InsertBuild?
    ensures var s, b := states[n], events[n].build;
            && b !in s.builds && b in states[n + 1].builds
            && var parent := states[n + 1].builds[b].parent;
               parent.Some? ==>
                 && parent.value in s.builds && parent.value < b
                 && s.builds[parent.value].channel == states[n + 1].builds[b].channel
                 && parent.value in s.status && s.status[parent.value] == Completed
  {
    RunKeeps(states, events, n);
    var s, p := states[n], events[n].pid;
    assert TransitionAt(states, events, n);
    assert ParentOk(s, s.pending[p].channel, s.pending[p].parent);
    if s.pending[p].parent.Some? { assert LifeOk(s, s.pending[p].parent.value); }
  }

  /** At event k process p read the head of this channel. */
  predicate HeadWasRead(states: seq<State>, events: seq<Event>, k: nat, p: Pid, pending: PendingBuild)
    requires k < |events| < |states|
  {
    && events[k] == ReadHead(p, pending.channel)
    && pending.parent == (if pending.channel in states[k].heads then states[k].heads[pending.channel] else None)
  }

  lemma PendingStays(s: State, e: Event, p: Pid)
    requires Enabled(s, e) && p in Do(s, e).pending
    ensures (e.ReadHead? && e.pid == p) || (p in s.pending && Do(s, e).pending[p] == s.pending[p])
  {
    if e.Step? {
      ActIsWrite(s, e.pid, e.ok, e.pick);
      WriteFrame(s, e.pid, e.ok, e.pick);
    }
  }

  lemma {:induction false} PendingHasRead(states: seq<State>, events: seq<Event>, n: nat, p: Pid)
    requires IsRun(states, events) && n < |states| && p in states[n].pending
    ensures exists k: nat :: k < n && HeadWasRead(states, events, k, p, states[n].pending[p])
  {
    assert n > 0;
    assert TransitionAt(states, events, n - 1);
    PendingStays(states[n - 1], events[n - 1], p);
    if events[n - 1].ReadHead? && events[n - 1].pid == p {
      assert HeadWasRead(states, events, n - 1, p, states[n].pending[p]);
    } else {
      PendingHasRead(states, events, n - 1, p);
    }
  }

  /** A new build is started, with no file and no row, on top of what the head of its
      channel was when the request read it. */
  lemma NewBuildsFollowTheHead(states: seq<State>, events: seq<Event>, n: nat)
    requires IsRun(states, events) && n < |events| && events[n].InsertBuild?
    ensures var s', b := states[n + 1], events[n].build;
            && b in s'.builds && b in s'.status && s'.status[b] == Started && b in s'.files && b !in s'.arch
            && s'.files[b] == Files(Missing, Missing)
            && exists k: nat :: k < n && HeadWasRead(states, events, k, events[n].pid,
                                                     PendingBuild(s'.builds[b].channel, s'.builds[b].parent))
  {
    RunKeeps(states, events, n);
    assert TransitionAt(states, events, n);
    PendingHasRead(states, events, n, events[n].pid);
    var p := events[n].pid;
    assert states[n].pending[p] == PendingBuild(states[n].pending[p].channel, states[n].pending[p].parent);
  }

  // ---------- one claim, one generation ----------

  /** b keeps its parent, never returns to started, and stays completed. */
  ghost predicate Forward(s: State, s': State, b: BuildId) {
    b in s.builds && b in s.status ==>
      && b in s'.builds && s'.builds[b] == s.builds[b] && b in s'.status
      && (s'.status[b] == Started ==> s.status[b] == Started)
      && (s.status[b] == Completed ==> s'.status[b] == Completed)
  }

  lemma EventMovesForward(s: State, e: Event, b: BuildId)
    requires Inv(s) && Enabled(s, e)
    ensures Forward(s, Do(s, e), b)
  {
    match e
    case Step(p, ok, pick) =>
      ActIsWrite(s, p, ok, pick);
      WriteFrame(s, p, ok, pick);
      assert ProcOk(s, p, s.procs[p]);
      if b in s.builds { StatusMovesForward(s, p, ok, pick, b); }
    case _ => OtherEffect(s, e);
  }

  lemma StatusMovesForward(s: State, p: Pid, ok: bool, pick: Format, b: BuildId)
    requires Lineage(s) && Life(s) && p in s.procs && ProcOk(s, p, s.procs[p]) && b in s.builds
    ensures var s' := Write(s, p, ok, pick);
            && b in s.status && b in s'.status
            && (s'.status[b] == Started ==> s.status[b] == Started)
            && (s.status[b] == Completed ==> s'.status[b] == Completed)
  {
    if s.procs[p].build == b && s.procs[p].at.Checking? {
      CheckMovesForward(s, p, b, s.procs[p].at.checkPc, ok);
    } else {
      WriteStatus(s, p, ok, pick);
    }
  }

  lemma CheckMovesForward(s: State, p: Pid, b: BuildId, pc: CheckPc, ok: bool)
    requires Lineage(s) && Life(s) && b in s.builds && CheckLocal(s, p, b, pc)
    ensures var s' := WriteCheck(s, p, b, pc, ok);
            && b in s'.status
            && (s'.status[b] == Started ==> s.status[b] == Started)
            && (s.status[b] == Completed ==> s'.status[b] == Completed)
  {
    assert LifeOk(s, b);
    CheckEffect(s, p, b, pc, ok);
  }

  lemma NextMovesForward(states: seq<State>, events: seq<Event>, i: nat, b: BuildId)
    requires IsRun(states, events) && i < |events|
    ensures Forward(states[i], states[i + 1], b)
  {
    RunKeeps(states, events, i);
    assert TransitionAt(states, events, i);
    EventMovesForward(states[i], events[i], b);
  }

  /** No run returns a build to started, undoes a completion or moves a build to
      another parent. */
  lemma {:induction false} BuildsMoveForward(states: seq<State>, events: seq<Event>, i: nat, j: nat, b: BuildId)
    requires IsRun(states, events) && i <= j < |states|
    ensures Forward(states[i], states[j], b)
    decreases j
  {
    if i < j {
      BuildsMoveForward(states, events, i, j - 1, b);
      NextMovesForward(states, events, j - 1, b);
    }
  }

  /** ClaimBuildProcessing succeeds at most once over a build's lifetime, at most
      one archive row is ever inserted for it, and checkAndUpdateBuildState never
      calls itself from a recursive call. */
  lemma OneGenerationPerBuild(states: seq<State>, events: seq<Event>, n: nat, b: BuildId)
    requires IsRun(states, events) && n < |states|
    ensures var s := states[n];
            && s.log.claims[b] <= 1
            && s.log.inserts[b] == (if b in s.arch then 1 else 0)
            && s.log.inserts[b] <= s.log.claims[b]
    ensures forall p | p in states[n].procs :: RecursionAtMostTwo(states[n].procs[p].at)
  {
    RunKeeps(states, events, n);
    var s := states[n];
    if b in s.arch { assert LifeOk(s, b); }
    forall p | p in s.procs ensures RecursionAtMostTwo(s.procs[p].at) { assert ProcOk(s, p, s.procs[p]); }
  }

  predicate RecursionAtMostTwo(at: Pc) {
    match at
    case Checking(CheckBuild(depth)) => depth <= 2
    case Checking(CheckFiles(depth, _)) => depth <= 2
    case Checking(Claim(depth)) => depth <= 1
    case Checking(AskParent(depth)) => depth <= 1
    case Checking(AwaitParent(depth, _)) => depth <= 1
    case Replaying(Generate(depth), _) => depth <= 1
    case _ => true
  }

  // ---------- locks ----------

  ghost predicate RowChanges(s: State, s': State, b: BuildId) {
    (b in s'.arch) != (b in s.arch) || (b in s.arch && b in s'.arch && s.arch[b] != s'.arch[b])
  }

  /** Every write of an archive row by ensure, evict and sweep happens under the
      lock of that build; the only other write is the one generation's insert. */
  lemma RowWritesHoldTheLock(states: seq<State>, events: seq<Event>, n: nat, b: BuildId)
    requires IsRun(states, events) && n < |events|
    requires RowChanges(states[n], states[n + 1], b)
    ensures var s, e := states[n], events[n];
            && e.Step? && e.pid in s.procs && s.procs[e.pid].build == b
            && (Owns(s, e.pid, b) || Generating(s, e.pid, b))
  {
    RunKeeps(states, events, n);
    var s, e := states[n], events[n];
    assert TransitionAt(states, events, n);
    if e.Step? {
      ActIsWrite(s, e.pid, e.ok, e.pick);
      WriteRow(s, e.pid, e.ok, e.pick);
      assert ProcOk(s, e.pid, s.procs[e.pid]);
    } else {
      OtherEffect(s, e);
    }
  }

  /** An object is deleted only by the lock holder of its build, and only while
      the build's row says evicted. */
  lemma DeletesHoldTheLock(states: seq<State>, events: seq<Event>, n: nat, key: Key)
    requires IsRun(states, events) && n < |events|
    requires key in states[n].objects && key !in states[n + 1].objects
    ensures var s, e := states[n], events[n];
            && e.Step? && Owns(s, e.pid, key.build)
            && key.build in s.arch && s.arch[key.build].state == Evicted
  {
    RunKeeps(states, events, n);
    var s, e := states[n], events[n];
    assert TransitionAt(states, events, n);
    if e.Step? {
      ActIsWrite(s, e.pid, e.ok, e.pick);
      WriteObjects(s, e.pid, e.ok, e.pick);
      assert ProcOk(s, e.pid, s.procs[e.pid]);
    } else {
      OtherEffect(s, e);
    }
  }

  predicate WaitsForLock(at: Pc) {
    at == Ensuring(LockWait) || at == Evicting(EvictLock) || at == Evicting(SweepLock)
  }

  /** A process holding an archive lock holds no other one, waits for none and for
      no nested request, so no cycle of waiting processes exists. */
  lemma NoHoldAndWait(states: seq<State>, events: seq<Event>, n: nat, b: BuildId)
    requires IsRun(states, events) && n < |states|
    requires b in states[n].locks
    ensures var s := states[n];
            var p := s.locks[b];
            && p in s.procs && s.procs[p].build == b
            && !WaitsForLock(s.procs[p].at) && !WaitsForRequest(s.procs[p].at)
            && forall x | x in s.locks && s.locks[x] == p :: x == b
  {
    RunKeeps(states, events, n);
    assert Locks(states[n]);
  }

  // ---------- what ensureArchive returns ----------

  predicate Answer(at: Pc, key: Key) {
    at == Returned(Some(key)) || at == Unlock(Some(key))
  }

  /** In the state, key is present and holds the tree of build b. */
  ghost predicate Serves(s: State, key: Key, b: BuildId) {
    key in s.objects && key.build == b && Fold(s.builds, s.files, b) == Some(s.objects[key].tree)
  }

  lemma EnsureDecides(s: State, b: BuildId, pc: EnsurePc, ok: bool, key: Key)
    requires Content(s) && EnsureLocal(s, b, pc) && Answer(AfterEnsure(s, b, pc, ok), key)
    ensures Serves(s, key, b)
  {
    if key in s.objects { assert ObjectOk(s, key); }
  }

  lemma ReplayDecides(s: State, b: BuildId, job: Job, pc: ReplayPc, ok: bool, pick: Format, key: Key)
    requires Content(s) && ReplayLocal(s, b, pc) && Answer(AfterReplay(s, b, job, pc, ok, pick), key)
    ensures Serves(s, key, b)
  {
    if key in s.objects { assert ObjectOk(s, key); }
  }

  /** The call that decides on an answer sees the object there. */
  lemma AnswerDecided(s: State, p: Pid, ok: bool, pick: Format, key: Key)
    requires Content(s) && p in s.procs && ProcOk(s, p, s.procs[p])
    requires After(s, p, ok, pick).Some? && Answer(After(s, p, ok, pick).value, key)
    ensures Answer(s.procs[p].at, key) || Serves(s, key, s.procs[p].build)
  {
    var b := s.procs[p].build;
    match s.procs[p].at
    case Ensuring(pc) => EnsureDecides(s, b, pc, ok, key);
    case Replaying(job, pc) => ReplayDecides(s, b, job, pc, ok, pick, key);
    case _ =>
  }

  lemma AnswerIsDecidedWhenPresent(states: seq<State>, events: seq<Event>, i: nat, p: Pid, key: Key)
    requires IsRun(states, events) && i < |events|
    requires p in states[i + 1].procs && Answer(states[i + 1].procs[p].at, key)
    ensures p in states[i].procs && states[i].procs[p].build == states[i + 1].procs[p].build
    ensures Answer(states[i].procs[p].at, key) || Serves(states[i], key, states[i].procs[p].build)
  {
    var s, e := states[i], events[i];
    RunKeeps(states, events, i);
    assert TransitionAt(states, events, i);
    if !e.Step? { OtherEffect(s, e); }
    else if e.pid == p { assert ProcOk(s, p, s.procs[p]); AnswerDecided(s, p, e.ok, e.pick, key); }
    else { ActIsWrite(s, e.pid, e.ok, e.pick); }
  }

  /** At instant k the object is there with the build's tree, and the process
      works on this build in every state from k to n. */
  ghost predicate ServedDuring(states: seq<State>, k: nat, n: nat, p: Pid, b: BuildId, key: Key)
    requires k < n < |states|
  {
    && Serves(states[k], key, b)
    && forall m | k <= m <= n :: p in states[m].procs && states[m].procs[p].build == b
  }

  /** A request that returns a path, whatever rebuilds and evictions of this
      build or its ancestors it raced with, returns one that held exactly the
      build's tree at some instant of the request. */
  lemma {:induction false} AnswersHeldTheTree(states: seq<State>, events: seq<Event>, n: nat, p: Pid, b: BuildId,
                                              key: Key)
    requires IsRun(states, events) && n < |states|
    requires p in states[n].procs && states[n].procs[p].build == b && Answer(states[n].procs[p].at, key)
    ensures exists k: nat :: k < n && ServedDuring(states, k, n, p, b, key)
  {
    assert n > 0;
    AnswerIsDecidedWhenPresent(states, events, n - 1, p, key);
    if Answer(states[n - 1].procs[p].at, key) {
      AnswersHeldTheTree(states, events, n - 1, p, b, key);
      var k: nat :| k < n - 1 && ServedDuring(states, k, n - 1, p, b, key);
      assert ServedDuring(states, k, n, p, b, key);
    } else {
      assert ServedDuring(states, n - 1, n, p, b, key);
    }
  }
}
