/** Every event keeps the invariant, so every state of every run has it. */
module ServerRuns {
  import opened Records
  import opened Trees
  import opened Server
  import opened ServerInvariant
  import opened ServerSteps

  // ---------- events that leave builds and files alone ----------

  lemma CrashKeeps(s: State, p: Pid)
    requires Inv(s)
    ensures Inv(CrashOf(s, p))
  {
    var s' := CrashOf(s, p);
    SameTables(s, s.(procs := s'.procs, locks := s'.locks));
    PendingTables(s.(procs := s'.procs, locks := s'.locks), s');
    StepKeeps(s, s', p);
  }

  lemma PendingTables(s: State, s': State)
    requires Tables(s) && s' == s.(pending := s'.pending)
    requires forall p | p in s'.pending :: ParentOk(s, s'.pending[p].channel, s'.pending[p].parent)
    ensures Tables(s')
  {
    forall b | b in s.builds ensures BuildOk(s', b) && LifeOk(s', b) { assert BuildOk(s, b) && LifeOk(s, b); }
    forall key | key in s.objects ensures ObjectOk(s', key) { assert ObjectOk(s, key); }
    forall b | b in s.arch ensures RowOk(s', b) { assert RowOk(s, b); }
  }

  /** A new process that knows nothing yet. */
  lemma SpawnKeeps(s: State, p: Pid, b: BuildId, at: Pc)
    requires Inv(s) && Idle(s, p) && !Holds(at) && LocalOk(s, p, b, at)
    ensures Inv(Spawn(s, p, b, at))
  {
    var s' := Spawn(s, p, b, at);
    SameTables(s, s');
    Rely(s, s', p + 1, p, Proc(b, at));
    StepKeeps(s, s', p);
  }

  lemma NestKeeps(s: State, p: Pid, helper: Pid)
    requires Inv(s) && AsksParent(s, p) && Idle(s, helper)
    ensures Inv(NestOf(s, p, helper))
  {
    var b, waiting := s.procs[p].build, Checking(AwaitParent(s.procs[p].at.checkPc.depth, helper));
    assert CheckLocal(s, p, b, s.procs[p].at.checkPc) by { assert ProcOk(s, p, s.procs[p]); }
    LocalStepKeeps(s, p, waiting);
    SpawnKeeps(Move(s, p, b, Some(waiting)), helper, s.builds[b].parent.value, Ensuring(WarmRow(false)));
  }

  lemma ReadHeadKeeps(s: State, p: Pid, channel: Channel)
    requires Inv(s) && Idle(s, p)
    ensures Inv(Do(s, ReadHead(p, channel)))
  {
    var s' := Do(s, ReadHead(p, channel));
    PendingTables(s, s');
    StepKeeps(s, s', p);
  }

  lemma OpenChannelKeeps(s: State, channel: Channel)
    requires Inv(s) && channel !in s.heads
    ensures Inv(Do(s, OpenChannel(channel)))
  {
    var s' := Do(s, OpenChannel(channel));
    OpenChannelTables(s, s', channel);
    NobodysStep(s, s');
  }

  lemma OpenChannelTables(s: State, s': State, channel: Channel)
    requires Tables(s) && s' == s.(heads := s.heads[channel := None])
    ensures Tables(s')
  {
    forall b | b in s.builds ensures BuildOk(s', b) && LifeOk(s', b) { assert BuildOk(s, b) && LifeOk(s, b); }
    forall key | key in s.objects ensures ObjectOk(s', key) { assert ObjectOk(s, key); }
    forall b | b in s.arch ensures RowOk(s', b) { assert RowOk(s, b); }
  }

  lemma LosePatchKeeps(s: State, b: BuildId)
    requires Inv(s)
    ensures Inv(s.(lost := s.lost + {b}))
  {
    var s' := s.(lost := s.lost + {b});
    assert Tables(s') by {
      forall b | b in s.builds ensures BuildOk(s', b) && LifeOk(s', b) { assert BuildOk(s, b) && LifeOk(s, b); }
      forall key | key in s.objects ensures ObjectOk(s', key) { assert ObjectOk(s, key); }
      forall b | b in s.arch ensures RowOk(s', b) { assert RowOk(s, b); }
    }
    NobodysStep(s, s');
  }

  /** An event that concerns no process. */
  lemma NobodysStep(s: State, s': State)
    requires Inv(s) && Tables(s')
    requires s'.procs == s.procs && s'.locks == s.locks && s'.arch == s.arch && s'.objects == s.objects
    requires s'.builds == s.builds && s'.files == s.files && s'.status == s.status && s'.uuids == s.uuids
    requires s'.log == s.log
    ensures Inv(s')
  {
    forall q | q in s'.procs ensures ProcOk(s', q, s'.procs[q]) { Rely(s, s', q + 1, q, s.procs[q]); }
  }

  // ---------- events that add builds or files ----------

  /** builds, status and files gain rows or finalized content. */
  ghost predicate Growth(s: State, s': State) {
    && s' == s.(builds := s'.builds, status := s'.status, files := s'.files, pending := s'.pending, procs := s'.procs)
    && Grows(s.builds, s.files, s'.builds, s'.files)
    && (forall b | b in s.status :: b in s'.status && s'.status[b] == s.status[b])
  }

  lemma GrowthReplay(s: State, s': State, b: BuildId, pc: ReplayPc)
    requires Growth(s, s') && ReplayLocal(s, b, pc)
    ensures ReplayLocal(s', b, pc)
  {
    match pc
    case Base(chain, base, phase) =>
      if phase.BaseSignatureRow? || phase.BaseSignatureGet? {
        FoldSurvivesGrowth(s.builds, s.files, s'.builds, s'.files, base);
      }
    case Link(chain, index, tree, expected, phase) =>
      BeforeSurvivesGrowth(s.builds, s.files, s'.builds, s'.files, chain[index]);
    case Put(tree) => LinkSurvivesGrowth(s.builds, s.files, s'.builds, s'.files, b);
      FoldSurvivesGrowth(s.builds, s.files, s'.builds, s'.files, b);
    case Save(key) => LinkSurvivesGrowth(s.builds, s.files, s'.builds, s'.files, b);
    case _ =>
  }

  lemma GrowthProc(s: State, s': State, q: Pid, proc: Proc)
    requires Growth(s, s') && ProcOk(s, q, proc)
    ensures ProcOk(s', q, proc)
  {
    match proc.at
    case Replaying(job, pc) => GrowthReplay(s, s', proc.build, pc);
    case Checking(pc) =>
    case _ =>
  }

  lemma GrowthTables(s: State, s': State)
    requires Tables(s) && Growth(s, s') && Lineage(s')
    requires forall b | b in s'.builds && b !in s.builds ::
              b !in s.arch && s'.status[b] == Started && b !in s.log.claimant
    ensures Tables(s')
  {
    forall b | b in s'.builds ensures LifeOk(s', b) {
      if b in s.builds {
        assert LifeOk(s, b);
        if b in s.arch { LinkSurvivesGrowth(s.builds, s.files, s'.builds, s'.files, b); }
      }
    }
    forall key | key in s.objects ensures ObjectOk(s', key) {
      assert ObjectOk(s, key);
      FoldSurvivesGrowth(s.builds, s.files, s'.builds, s'.files, key.build);
    }
    forall b | b in s.arch ensures RowOk(s', b) { assert RowOk(s, b); }
  }

  lemma GrowthKeeps(s: State, s': State)
    requires Inv(s) && Growth(s, s') && s'.procs == s.procs && Lineage(s')
    requires forall b | b in s'.builds && b !in s.builds ::
              b !in s.arch && s'.status[b] == Started && b !in s.log.claimant
    ensures Inv(s')
  {
    GrowthTables(s, s');
    forall q | q in s'.procs ensures ProcOk(s', q, s'.procs[q]) { GrowthProc(s, s', q, s.procs[q]); }
  }

  lemma InsertBuildKeeps(s: State, p: Pid, b: BuildId)
    requires Inv(s) && Enabled(s, InsertBuild(p, b))
    ensures Inv(Do(s, InsertBuild(p, b)))
  {
    var s' := Do(s, InsertBuild(p, b));
    InsertBuildGrowth(s, s', p, b);
    InsertBuildLineage(s, s', p, b);
    GrowthKeeps(s, s');
  }

  lemma InsertBuildGrowth(s: State, s': State, p: Pid, b: BuildId)
    requires s.status.Keys == s.builds.Keys == s.files.Keys
    requires Enabled(s, InsertBuild(p, b)) && s' == Do(s, InsertBuild(p, b))
    ensures Growth(s, s')
    ensures b !in s.builds && forall x | x in s'.builds && x !in s.builds :: x == b && s'.status[x] == Started
  {
    assert b !in s.builds;
    InsertGrows(s, s', b, Build(s.pending[p].channel, s.pending[p].parent));
  }

  lemma InsertGrows(s: State, s': State, b: BuildId, build: Build)
    requires s.status.Keys == s.builds.Keys == s.files.Keys && b !in s.builds
    requires s' == s.(builds := s.builds[b := build], status := s.status[b := Started],
                      files := s.files[b := Files(Missing, Missing)], pending := s'.pending)
    ensures Growth(s, s')
    ensures forall x | x in s'.builds && x !in s.builds :: x == b && s'.status[x] == Started
  {
  }

  lemma InsertBuildLineage(s: State, s': State, p: Pid, b: BuildId)
    requires Lineage(s) && Enabled(s, InsertBuild(p, b)) && s' == Do(s, InsertBuild(p, b))
    ensures Lineage(s')
  {
    assert ParentOk(s, s.pending[p].channel, s.pending[p].parent);
    forall x | x in s'.builds ensures BuildOk(s', x) { if x in s.builds { assert BuildOk(s, x); } }
  }

  lemma SetFilesKeeps(s: State, b: BuildId, files: Files)
    requires Inv(s) && b in s.files
    requires IsFinal(s.files[b].patch) ==> files.patch == s.files[b].patch
    requires IsFinal(s.files[b].signature) ==> files.signature == s.files[b].signature
    ensures Inv(SetFiles(s, b, files))
  {
    var s' := SetFiles(s, b, files);
    forall x | x in s'.builds ensures BuildOk(s', x) { assert BuildOk(s, x); }
    GrowthKeeps(s, s');
  }

  lemma FinalizeKeeps(s: State, p: Pid, b: BuildId, files: Files)
    requires Inv(s) && b in s.files && Idle(s, p)
    requires IsFinal(s.files[b].patch) ==> files.patch == s.files[b].patch
    requires IsFinal(s.files[b].signature) ==> files.signature == s.files[b].signature
    ensures Inv(Spawn(SetFiles(s, b, files), p, b, Checking(CheckBuild(1))))
  {
    SetFilesKeeps(s, b, files);
    SpawnKeeps(SetFiles(s, b, files), p, b, Checking(CheckBuild(1)));
  }

  // ---------- all events, all runs ----------

  lemma EventKeeps(s: State, e: Event)
    requires Inv(s) && Enabled(s, e)
    ensures Inv(Do(s, e))
  {
    match e
    case Step(p, ok, pick) => ActKeeps(s, p, ok, pick);
    case Crash(p) => CrashKeeps(s, p);
    case Ensure(p, b) => SpawnKeeps(s, p, b, Ensuring(WarmRow(false)));
    case Nest(p, helper) => NestKeeps(s, p, helper);
    case ListForEviction(p, b) => SpawnKeeps(s, p, b, Evicting(EvictLock));
    case ListForSweep(p, b) => SpawnKeeps(s, p, b, Evicting(SweepLock));
    case ReadHead(p, channel) => ReadHeadKeeps(s, p, channel);
    case InsertBuild(p, b) => InsertBuildKeeps(s, p, b);
    case OpenChannel(channel) => OpenChannelKeeps(s, channel);
    case OpenPatch(b) => SetFilesKeeps(s, b, s.files[b].(patch := Uploading));
    case OpenSignature(b) => SetFilesKeeps(s, b, s.files[b].(signature := Uploading));
    case FinalizePatch(p, b, patch, size) => FinalizeKeeps(s, p, b, s.files[b].(patch := Ready(patch, size)));
    case FinalizeSignature(p, b, signature, size) => FinalizeKeeps(s, p, b,
                                                                   s.files[b].(signature := Ready(signature, size)));
    case FinalizeBrokenPatch(p, b) => FinalizeKeeps(s, p, b, s.files[b].(patch := Broken));
    case FinalizeBrokenSignature(p, b) => FinalizeKeeps(s, p, b, s.files[b].(signature := Broken));
    case LosePatch(b) => LosePatchKeeps(s, b);
  }

  lemma NextKeeps(states: seq<State>, events: seq<Event>, i: nat)
    requires IsRun(states, events) && i < |events| && Inv(states[i])
    ensures Inv(states[i + 1])
  {
    assert TransitionAt(states, events, i);
    EventKeeps(states[i], events[i]);
  }

  lemma StartKeeps()
    ensures Inv(Init())
  {
  }

  /** The invariant holds in every state of every run, whatever the
      interleaving, the failed calls and the crashes. */
  lemma {:induction false} RunKeeps(states: seq<State>, events: seq<Event>, n: nat)
    requires IsRun(states, events) && n < |states|
    ensures Inv(states[n])
  {
    if n == 0 {
      StartKeeps();
    } else {
      RunKeeps(states, events, n - 1);
      NextKeeps(states, events, n - 1);
    }
  }

  // ---------- where runs can lead ----------

  /** One event of a run, allowed by the rule. */
  ghost predicate StepBy(rule: (State, Event) -> bool, states: seq<State>, events: seq<Event>, i: nat)
    requires i < |events| && |states| == |events| + 1
  {
    TransitionAt(states, events, i) && rule(states[i], events[i])
  }

  ghost predicate RunBy(rule: (State, Event) -> bool, states: seq<State>, events: seq<Event>) {
    |states| == |events| + 1 && forall i: nat | i < |events| :: StepBy(rule, states, events, i)
  }

  /** Events allowed by the rule lead from s to s'. */
  ghost predicate Leads(rule: (State, Event) -> bool, s: State, s': State) {
    exists states, events :: RunBy(rule, states, events) && states[0] == s && states[|events|] == s'
  }

  ghost function AnyEvent(): (State, Event) -> bool { (s: State, e: Event) => true }

  ghost predicate Reachable(s: State) {
    Leads(AnyEvent(), Init(), s)
  }

  lemma LeadsToSelf(rule: (State, Event) -> bool, s: State)
    ensures Leads(rule, s, s)
  {
    var states, events: seq<Event> := [s], [];
    assert RunBy(rule, states, events);
    assert states[|events|] == s;
  }

  lemma SameStep(rule: (State, Event) -> bool, states: seq<State>, events: seq<Event>, i: nat,
                 rule': (State, Event) -> bool, states': seq<State>, events': seq<Event>, j: nat)
    requires |states| == |events| + 1 && |states'| == |events'| + 1 && i < |events| && j < |events'|
    requires StepBy(rule, states, events, i) && (rule(states[i], events[i]) ==> rule'(states[i], events[i]))
    requires states'[j] == states[i] && states'[j + 1] == states[i + 1] && events'[j] == events[i]
    ensures StepBy(rule', states', events', j)
  {
  }

  lemma LeadsNext(rule: (State, Event) -> bool, origin: State, s: State, e: Event)
    requires Leads(rule, origin, s) && Enabled(s, e) && rule(s, e)
    ensures Leads(rule, origin, Do(s, e))
  {
    var states, events :| RunBy(rule, states, events) && states[0] == origin && states[|events|] == s;
    var states', events' := states + [Do(s, e)], events + [e];
    forall i: nat | i < |events'| ensures StepBy(rule, states', events', i) {
      if i < |events| { SameStep(rule, states, events, i, rule, states', events', i); }
    }
    assert RunBy(rule, states', events') && states'[0] == origin && states'[|events'|] == Do(s, e);
  }

  lemma LeadsJoins(rule: (State, Event) -> bool, s: State, mid: State, s': State)
    requires Leads(rule, s, mid) && Leads(rule, mid, s')
    ensures Leads(rule, s, s')
  {
    var first, events :| RunBy(rule, first, events) && first[0] == s && first[|events|] == mid;
    var second, events' :| RunBy(rule, second, events') && second[0] == mid && second[|events'|] == s';
    var both, n := first + second[1..], |events|;
    forall i: nat | i < |events + events'| ensures StepBy(rule, both, events + events', i) {
      if i < n {
        SameStep(rule, first, events, i, rule, both, events + events', i);
      } else {
        assert both[i] == second[i - n];
        SameStep(rule, second, events', i - n, rule, both, events + events', i);
      }
    }
    assert RunBy(rule, both, events + events') && both[0] == s && both[|events + events'|] == s';
  }

  /** What one rule allows, a looser one does. */
  lemma LeadsLoosely(rule: (State, Event) -> bool, rule': (State, Event) -> bool, s: State, s': State)
    requires Leads(rule, s, s') && forall x, e | rule(x, e) :: rule'(x, e)
    ensures Leads(rule', s, s')
  {
    var states, events :| RunBy(rule, states, events) && states[0] == s && states[|events|] == s';
    forall i: nat | i < |events| ensures StepBy(rule', states, events, i) {
      SameStep(rule, states, events, i, rule', states, events, i);
    }
    assert RunBy(rule', states, events);
  }

  lemma LeadsAnyhow(rule: (State, Event) -> bool, s: State, s': State)
    requires Leads(rule, s, s')
    ensures Leads(AnyEvent(), s, s')
  {
    LeadsLoosely(rule, AnyEvent(), s, s');
  }

  /** A run by a rule from the empty server is a run whose events it allows. */
  lemma RunByIsRun(rule: (State, Event) -> bool, states: seq<State>, events: seq<Event>)
    requires RunBy(rule, states, events) && states[0] == Init()
    ensures IsRun(states, events) && forall i: nat | i < |events| :: rule(states[i], events[i])
  {
    forall i: nat | i < |events| ensures TransitionAt(states, events, i) && rule(states[i], events[i]) {
      assert StepBy(rule, states, events, i);
    }
  }

  // One step of each kind of process.

  lemma EnsureStepLeads(rule: (State, Event) -> bool, origin: State, s: State, p: Pid, b: BuildId, pc: EnsurePc,
                        ok: bool)
    requires Leads(rule, origin, s) && p in s.procs && s.procs[p] == Proc(b, Ensuring(pc)) && rule(s, Step(p, ok, Zip))
    ensures Leads(rule, origin, Move(WriteEnsure(s, p, b, pc, ok), p, b, Some(AfterEnsure(s, b, pc, ok))))
  {
    LeadsNext(rule, origin, s, Step(p, ok, Zip));
  }

  lemma ReplayStepLeads(rule: (State, Event) -> bool, origin: State, s: State, p: Pid, b: BuildId,
                        job: Job, pc: ReplayPc, ok: bool, pick: Format)
    requires Leads(rule, origin, s) && p in s.procs && s.procs[p] == Proc(b, Replaying(job, pc))
    requires rule(s, Step(p, ok, pick))
    ensures Leads(rule, origin, Move(WriteReplay(s, b, job, pc, ok, pick), p, b,
                                     Some(AfterReplay(s, b, job, pc, ok, pick))))
  {
    LeadsNext(rule, origin, s, Step(p, ok, pick));
  }

  lemma CheckStepLeads(rule: (State, Event) -> bool, origin: State, s: State, p: Pid, b: BuildId, pc: CheckPc, ok: bool)
    requires Leads(rule, origin, s) && p in s.procs && s.procs[p] == Proc(b, Checking(pc)) && rule(s, Step(p, ok, Zip))
    ensures Leads(rule, origin, Move(WriteCheck(s, p, b, pc, ok), p, b, AfterCheck(s, b, pc, ok)))
  {
    LeadsNext(rule, origin, s, Step(p, ok, Zip));
  }

  lemma EvictStepLeads(rule: (State, Event) -> bool, origin: State, s: State, p: Pid, b: BuildId, pc: EvictPc, ok: bool)
    requires Leads(rule, origin, s) && p in s.procs && s.procs[p] == Proc(b, Evicting(pc)) && rule(s, Step(p, ok, Zip))
    ensures Leads(rule, origin, Move(WriteEvict(s, p, b, pc, ok), p, b, AfterEvict(s, b, pc, ok)))
  {
    LeadsNext(rule, origin, s, Step(p, ok, Zip));
  }

  lemma ReachableKeeps(s: State)
    requires Reachable(s)
    ensures Inv(s)
  {
    var states, events :| RunBy(AnyEvent(), states, events) && states[0] == Init() && states[|events|] == s;
    RunByIsRun(AnyEvent(), states, events);
    RunKeeps(states, events, |events|);
  }

  lemma RunIsReachable(states: seq<State>, events: seq<Event>, n: nat)
    requires IsRun(states, events) && n < |states|
    ensures Reachable(states[n])
  {
    var states', events' := states[..n + 1], events[..n];
    forall i: nat | i < |events'| ensures StepBy(AnyEvent(), states', events', i) {
      assert TransitionAt(states, events, i) && StepBy(AnyEvent(), states, events, i);
      SameStep(AnyEvent(), states, events, i, AnyEvent(), states', events', i);
    }
    assert RunBy(AnyEvent(), states', events') && states'[|events'|] == states[n];
  }

  /** Reachable states are the states of runs: what is proved of one holds of the other. */
  lemma ReachableIsOnARun(s: State)
    ensures Reachable(s) <==> exists states, events, n: nat :: IsRun(states, events) && n < |states| && states[n] == s
  {
    if Reachable(s) {
      var states, events :| RunBy(AnyEvent(), states, events) && states[0] == Init() && states[|events|] == s;
      RunByIsRun(AnyEvent(), states, events);
    }
    forall states, events, n: nat | IsRun(states, events) && n < |states| && states[n] == s ensures Reachable(s) {
      RunIsReachable(states, events, n);
    }
  }
}
