/** Why the results about runs need their conditions. After careful events an event
    is careful exactly when the balance of rebuilds and evictions cannot be broken
    by careful events after it; after settled events an event is settled exactly
    when no head can be harmed by settled events after it. Then, for each
    condition, a run from the empty server that comes to such an event. */
module Races {
  import opened Records
  import opened Trees
  import opened Server
  import opened ServerInvariant
  import opened ServerRuns
  import opened ServerCaching
  import opened ServerAvailability
  import opened ServerHeads

  function At(s: State, p: Pid, b: BuildId, at: Pc): State {
    s.(procs := s.procs[p := Proc(b, at)])
  }

  lemma MovesAt(s: State, p: Pid, b: BuildId, at: Pc, next: Pc)
    ensures Move(At(s, p, b, at), p, b, Some(next)) == At(s, p, b, next)
  {
  }

  // ---------- a rebuild starts on an uploaded archive ----------

  function Remarked(s: State, b: BuildId): State
    requires b in s.arch
  {
    s.(arch := s.arch[b := RebuildingCopy(Some(s.arch[b]))])
  }

  function ReplayStart(row: ArchiveRow, b: BuildId): Pc {
    Replaying(Rebuild(RebuildingCopy(Some(row)), row.evictedAt), Walk([b], b))
  }

  /** What follows the check of rebuildArchive when its calls succeed. */
  lemma RemarkFollows(rule: (State, Event) -> bool, origin: State, s: State, p: Pid, b: BuildId)
    requires b in s.arch && Leads(rule, origin, At(s, p, b, Ensuring(RebuildRow)))
    requires rule(At(s, p, b, Ensuring(RebuildRow)), Step(p, true, Zip))
    requires rule(At(s, p, b, Ensuring(MarkRebuilding(Some(s.arch[b])))), Step(p, true, Zip))
    ensures Leads(rule, origin, At(Remarked(s, b), p, b, ReplayStart(s.arch[b], b)))
  {
    var reading, pc := At(s, p, b, Ensuring(RebuildRow)), MarkRebuilding(Some(s.arch[b]));
    EnsureStepLeads(rule, origin, reading, p, b, RebuildRow, true);
    MovesAt(s, p, b, Ensuring(RebuildRow), Ensuring(pc));
    MarkFollows(rule, origin, s, p, b);
  }

  lemma MarkFollows(rule: (State, Event) -> bool, origin: State, s: State, p: Pid, b: BuildId)
    requires b in s.arch && Leads(rule, origin, At(s, p, b, Ensuring(MarkRebuilding(Some(s.arch[b])))))
    requires rule(At(s, p, b, Ensuring(MarkRebuilding(Some(s.arch[b])))), Step(p, true, Zip))
    ensures Leads(rule, origin, At(Remarked(s, b), p, b, ReplayStart(s.arch[b], b)))
  {
    var pc := MarkRebuilding(Some(s.arch[b]));
    EnsureStepLeads(rule, origin, At(s, p, b, Ensuring(pc)), p, b, pc, true);
    assert WriteRebuilding(At(s, p, b, Ensuring(pc)), b, Some(s.arch[b])).log == s.log;
    MovesAt(Remarked(s, b), p, b, Ensuring(pc), ReplayStart(s.arch[b], b));
  }

  /** The check of rebuildArchive has passed. */
  lemma CheckPasses(s: State, p: Pid, b: BuildId, pick: Format)
    requires p in s.procs && s.procs[p] == Proc(b, Ensuring(RebuildBuild)) && b in s.status && s.status[b] == Completed
    ensures Do(s, Step(p, true, pick)) == At(s, p, b, Ensuring(RebuildRow))
  {
  }

  lemma StartingWarmUnbalances(s: State, e: Event)
    requires Enabled(s, e) && StartsWarm(s, e)
    ensures exists s', b :: Leads(Careful(), Do(s, e), s') && Balance(s', b) == Balance(s, b) + 1
  {
    var p, b := e.pid, s.procs[e.pid].build;
    CheckPasses(s, p, b, e.pick);
    LeadsToSelf(Careful(), Do(s, e));
    RemarkFollows(Careful(), Do(s, e), s, p, b);
    assert Balance(At(Remarked(s, b), p, b, ReplayStart(s.arch[b], b)), b) == Balance(s, b) + 1;
  }

  lemma CarefulBalances(s: State, b: BuildId)
    requires Leads(Careful(), Init(), s)
    ensures Balance(s, b) == 0
  {
    var states, events :| RunBy(Careful(), states, events) && states[0] == Init() && states[|events|] == s;
    RunByIsRun(Careful(), states, events);
    CarefulRunsBalance(states, events, |events|, b);
  }

  /** After careful events, an event is careful exactly when no careful events after it
      can break the balance of rebuilds and evictions. */
  lemma CarefulIsExact(s: State, e: Event)
    requires Leads(Careful(), Init(), s) && Enabled(s, e)
    ensures Careful()(s, e) <==> forall s', b :: Leads(Careful(), Do(s, e), s') ==> Balance(s', b) == 0
  {
    if Careful()(s, e) {
      LeadsNext(Careful(), Init(), s, e);
      forall s', b | Leads(Careful(), Do(s, e), s') ensures Balance(s', b) == 0 {
        LeadsJoins(Careful(), Init(), Do(s, e), s');
        CarefulBalances(s', b);
      }
    } else {
      StartingWarmUnbalances(s, e);
      var s', b :| Leads(Careful(), Do(s, e), s') && Balance(s', b) == Balance(s, b) + 1;
      CarefulBalances(s, b);
    }
  }

  // ---------- a head is made or evicted out of turn ----------

  /** Process q makes b the head of its channel. */
  function Crowned(s: State, q: Pid, b: BuildId): State
    requires b in s.builds
  {
    s.(heads := s.heads[s.builds[b].channel := Some(b)], procs := s.procs - {q},
       log := s.log.(crowned := s.log.crowned + multiset{b}))
  }

  lemma CrownIsSet(origin: State, s: State, q: Pid, b: BuildId)
    requires Leads(SettledEvents(), origin, s) && KnownBuild(s, b) && s.builds[b].channel in s.heads
    requires q in s.procs && s.procs[q] == Proc(b, Checking(Crown))
    ensures Leads(SettledEvents(), origin, Crowned(s, q, b))
  {
    CheckStepLeads(SettledEvents(), origin, s, q, b, Crown, true);
  }

  /** With the channel row there or inserted first. */
  lemma CrownFollows(origin: State, s: State, q: Pid, b: BuildId)
    requires Leads(SettledEvents(), origin, s) && KnownBuild(s, b)
    requires q in s.procs && s.procs[q] == Proc(b, Checking(Crown))
    ensures Leads(SettledEvents(), origin, Crowned(s, q, b)) && IsHead(Crowned(s, q, b), b)
  {
    var channel := s.builds[b].channel;
    assert Crowned(s, q, b).heads[channel] == Some(b);
    if channel in s.heads {
      CrownIsSet(origin, s, q, b);
    } else {
      var ready := s.(heads := s.heads[channel := None]);
      LeadsNext(SettledEvents(), origin, s, OpenChannel(channel));
      CrownIsSet(origin, ready, q, b);
      assert ready.heads[channel := Some(b)] == s.heads[channel := Some(b)];
    }
  }

  /** Everything the guards after the one on heads ask for. */
  ghost predicate Evictable(s: State, b: BuildId) {
    KnownBuild(s, b) && s.status[b] == Completed && FilesReady(s.files, b) && b !in s.lost && b in s.arch
  }

  /** The rule lets m pass the guards after the one on heads. */
  ghost predicate LetsPass(rule: (State, Event) -> bool, s: State, m: Pid, b: BuildId, row: ArchiveRow) {
    forall check | check != NotHead :: rule(At(s, m, b, Evicting(Guard(row, check))), Step(m, true, Zip))
  }

  lemma GuardFollows(rule: (State, Event) -> bool, origin: State, s: State, m: Pid, b: BuildId, row: ArchiveRow,
                     check: GuardCheck)
    requires Leads(rule, origin, At(s, m, b, Evicting(Guard(row, check)))) && check != NotHead
    requires Evictable(s, b) && LetsPass(rule, s, m, b, row)
    ensures Leads(rule, origin, At(s, m, b, Evicting(AfterGuard(row, check))))
  {
    EvictStepLeads(rule, origin, At(s, m, b, Evicting(Guard(row, check))), m, b, Guard(row, check), true);
    MovesAt(s, m, b, Evicting(Guard(row, check)), Evicting(AfterGuard(row, check)));
  }

  /** The remaining guards pass one after the other. */
  lemma {:induction false} GuardsFollow(rule: (State, Event) -> bool, origin: State, s: State, m: Pid, b: BuildId,
                                        row: ArchiveRow, check: GuardCheck)
    requires Leads(rule, origin, At(s, m, b, Evicting(Guard(row, check)))) && check != NotHead
    requires Evictable(s, b) && LetsPass(rule, s, m, b, row)
    ensures Leads(rule, origin, At(s, m, b, Evicting(EvictMark(row))))
    decreases match check
              case NotHead => 5
              case BuildCompleted => 4
              case PatchRowThere => 3
              case PatchThere => 2
              case SignatureRowThere => 1
              case SignatureThere => 0
  {
    GuardFollows(rule, origin, s, m, b, row, check);
    if check != SignatureThere { GuardsFollow(rule, origin, s, m, b, row, AfterGuard(row, check).check); }
  }

  /** The head's archive is marked. */
  ghost predicate HeadEvicted(s: State, b: BuildId) {
    IsHead(s, b) && s.log.marks[b] >= 1 && b in s.arch && s.arch[b].state == Evicted
  }

  lemma MarkLands(rule: (State, Event) -> bool, origin: State, s: State, m: Pid, b: BuildId, row: ArchiveRow)
    requires Leads(rule, origin, At(s, m, b, Evicting(EvictMark(row)))) && b in s.arch && IsHead(s, b)
    requires rule(At(s, m, b, Evicting(EvictMark(row))), Step(m, true, Zip))
    ensures exists s' :: Leads(rule, origin, s') && HeadEvicted(s', b)
  {
    var marking := At(s, m, b, Evicting(EvictMark(row)));
    EvictStepLeads(rule, origin, marking, m, b, EvictMark(row), true);
    var s' := Move(WriteEvict(marking, m, b, EvictMark(row), true), m, b, AfterEvict(marking, b, EvictMark(row), true));
    assert s'.heads == s.heads;
    var channel :| channel in s.heads && s.heads[channel] == Some(b);
    assert IsHead(s', b) by { assert s'.heads[channel] == Some(b); }
  }

  /** A process past the guard on heads evicts the head. */
  lemma MarkerEvictsHead(origin: State, s: State, m: Pid, b: BuildId)
    requires Leads(SettledEvents(), origin, s) && Evictable(s, b) && IsHead(s, b)
    requires m in s.procs && s.procs[m].build == b && PastHeadGuard(s.procs[m].at)
    ensures exists s' :: Leads(SettledEvents(), origin, s') && HeadEvicted(s', b)
  {
    var pc := s.procs[m].at.evictPc;
    assert At(s, m, b, Evicting(pc)) == s;
    if pc.Guard? { GuardsFollow(SettledEvents(), origin, s, m, b, pc.row, pc.check); }
    MarkLands(SettledEvents(), origin, s, m, b, pc.row);
  }

  /** The completion of b by p; the next call makes it head. */
  function CompletedBy(s: State, p: Pid, b: BuildId): State {
    At(s.(status := s.status[b := Completed], log := s.log.(completed := s.log.completed + {b})), p, b, Checking(Crown))
  }

  lemma CompletionIsDone(s: State, p: Pid, b: BuildId, pick: Format)
    requires p in s.procs && s.procs[p] == Proc(b, Checking(Complete)) && KnownBuild(s, b)
    ensures Do(s, Step(p, true, pick)) == CompletedBy(s, p, b)
  {
  }

  lemma CompletionMakesHead(s: State, p: Pid, b: BuildId)
    requires KnownBuild(s, b)
    ensures Leads(SettledEvents(), CompletedBy(s, p, b), Crowned(CompletedBy(s, p, b), p, b))
    ensures IsHead(Crowned(CompletedBy(s, p, b), p, b), b)
  {
    LeadsToSelf(SettledEvents(), CompletedBy(s, p, b));
    CrownFollows(CompletedBy(s, p, b), CompletedBy(s, p, b), p, b);
  }

  /** A completion of a build that was head or evicted before, that another process
      is making head, or that one is going to evict. */
  lemma UnsettledCompletionHarms(s: State, p: Pid, b: BuildId)
    requires Inv(s) && p in s.procs && s.procs[p] == Proc(b, Checking(Complete)) && !SettledStep(s, p)
    ensures exists s' :: Leads(SettledEvents(), CompletedBy(s, p, b), s') && HeadHarmed(s', b)
  {
    assert CheckLocal(s, p, b, Complete) by { assert ProcOk(s, p, s.procs[p]); }
    assert LifeOk(s, b);
    var crowned := Crowned(CompletedBy(s, p, b), p, b);
    CompletionMakesHead(s, p, b);
    if s.log.crowned[b] == 0 && s.log.marks[b] == 0 {
      var q :| q in s.procs && s.procs[q].build == b && (Crowning(s.procs[q].at) || WillMark(s.lost, s.procs[q]));
      if Crowning(s.procs[q].at) {
        CrownFollows(CompletedBy(s, p, b), crowned, q, b);
        assert HeadHarmed(Crowned(crowned, q, b), b);
      } else {
        MarkerEvictsHead(CompletedBy(s, p, b), crowned, q, b);
      }
    } else {
      assert HeadHarmed(crowned, b);
    }
  }

  /** The guard on heads is passed by a build that is about to become one. */
  lemma UnsettledGuardHarms(s: State, m: Pid, b: BuildId, row: ArchiveRow)
    requires Inv(s) && m in s.procs && s.procs[m] == Proc(b, Evicting(Guard(row, NotHead))) && !SettledStep(s, m)
    ensures exists s' :: Leads(SettledEvents(), At(s, m, b, Evicting(Guard(row, BuildCompleted))),
                               s') && HeadEvicted(s', b)
  {
    var next := At(s, m, b, Evicting(Guard(row, BuildCompleted)));
    var q :| q in s.procs && s.procs[q].build == b && Crowning(s.procs[q].at);
    assert b in s.log.completed by { assert ProcOk(s, q, s.procs[q]); }
    assert LifeOk(s, b);
    LeadsToSelf(SettledEvents(), next);
    CrownFollows(next, next, q, b);
    MarkerEvictsHead(next, Crowned(next, q, b), m, b);
  }

  lemma GuardIsPassed(s: State, m: Pid, b: BuildId, row: ArchiveRow, pick: Format)
    requires m in s.procs && s.procs[m] == Proc(b, Evicting(Guard(row, NotHead))) && !IsHead(s, b)
    ensures Do(s, Step(m, true, pick)) == At(s, m, b, Evicting(Guard(row, BuildCompleted)))
  {
  }

  lemma UnsettledHarms(s: State, e: Event)
    requires Inv(s) && Enabled(s, e) && !Settled(s, e)
    ensures exists s', b :: Leads(SettledEvents(), Do(s, e), s') && HeadHarmed(s', b)
  {
    var p, b := e.pid, s.procs[e.pid].build;
    assert e == Step(p, true, e.pick);
    if s.procs[p].at == Checking(Complete) {
      assert CheckLocal(s, p, b, Complete) by { assert ProcOk(s, p, s.procs[p]); }
      CompletionIsDone(s, p, b, e.pick);
      UnsettledCompletionHarms(s, p, b);
      var s' :| Leads(SettledEvents(), CompletedBy(s, p, b), s') && HeadHarmed(s', b);
    } else {
      var row := s.procs[p].at.evictPc.row;
      GuardIsPassed(s, p, b, row, e.pick);
      UnsettledGuardHarms(s, p, b, row);
      var s' :| Leads(SettledEvents(), At(s, p, b, Evicting(Guard(row, BuildCompleted))), s') && HeadEvicted(s', b);
      assert HeadHarmed(s', b);
    }
  }

  /** After settled events, an event is settled exactly when no settled events after it
      can make a build head twice or evict a current head. */
  lemma SettledIsExact(s: State, e: Event)
    requires Leads(SettledEvents(), Init(), s) && Enabled(s, e)
    ensures Settled(s, e) <==> forall s', b :: Leads(SettledEvents(), Do(s, e), s') ==> !HeadHarmed(s', b)
  {
    if Settled(s, e) {
      LeadsNext(SettledEvents(), Init(), s, e);
      forall s', b | Leads(SettledEvents(), Do(s, e), s') ensures !HeadHarmed(s', b) {
        LeadsJoins(SettledEvents(), Init(), Do(s, e), s');
        SettledHarmsNoHead(s', b);
      }
    } else {
      LeadsAnyhow(SettledEvents(), Init(), s);
      ReachableKeeps(s);
      UnsettledHarms(s, e);
    }
  }

  // ---------- one build, first in its channel ----------

  const CHANNEL: Channel := Channel(0, "linux")
  const PATCH: Patch := Patch(EMPTY_CONTAINER, EMPTY_CONTAINER, map[])
  const KEY: Key := Key(0, 0, Zip)
  const ROW: ArchiveRow := ArchiveRow(Uploaded, Some(KEY), false)
  const NO_LOG: Log := Log(map[], {}, multiset{}, multiset{}, multiset{}, multiset{}, multiset{})
  const CLAIMED: Log := NO_LOG.(claimant := map[0 := 1], claims := multiset{0})
  const INSERTED: Log := CLAIMED.(inserts := multiset{0})
  const COMPLETED: Log := INSERTED.(completed := {0})
  const CROWNED: Log := COMPLETED.(crowned := multiset{0})

  /** Build 0 with its two files finalized. */
  function World(status: BuildState, arch: map<BuildId, ArchiveRow>, objects: map<Key, Archive>, uuids: nat,
                 head: Option<BuildId>, locks: map<BuildId, Pid>, procs: map<Pid, Proc>, log: Log): State
  {
    State(map[0 := Build(CHANNEL, None)], map[0 := status],
          map[0 := Files(Ready(PATCH, 1), Ready(EMPTY_CONTAINER, 1))], {}, map[CHANNEL := head],
          arch, objects, uuids, locks, procs, map[], log)
  }

  /** Before the archive is there, and after. */
  function Fresh(status: BuildState, procs: map<Pid, Proc>, log: Log): State {
    World(status, map[], map[], 0, None, map[], procs, log)
  }

  function Stored(status: BuildState, head: Option<BuildId>, locks: map<BuildId, Pid>, procs: map<Pid, Proc>,
                  log: Log): State {
    World(status, map[0 := ROW], map[KEY := Archive(Zip, EMPTY_TREE)], 1, head, locks, procs, log)
  }

  function Pair(first: Pc, second: Pc): map<Pid, Proc> {
    map[1 := Proc(0, first), 2 := Proc(0, second)]
  }

  /** The runs below keep to a transaction as long as they can. */
  ghost predicate Comes(s: State) {
    Leads(Transactional(), Init(), s)
  }

  lemma Next(s: State, e: Event)
    requires Comes(s) && Enabled(s, e) && ActsAlone(s, e) && CompletesOnce(s, e)
    ensures Comes(Do(s, e))
  {
    LeadsNext(Transactional(), Init(), s, e);
  }

  lemma CheckCalls(s: State, p: Pid, s': State)
    requires Comes(s) && p in s.procs && s.procs[p].build == 0 && s.procs[p].at.Checking?
    requires ActsAlone(s, Step(p, true, Zip)) && CompletesOnce(s, Step(p, true, Zip))
    requires var pc := s.procs[p].at.checkPc; s' == Move(WriteCheck(s, p, 0, pc, true), p, 0,
                                                         AfterCheck(s, 0, pc, true))
    ensures Comes(s')
  {
    CheckStepLeads(Transactional(), Init(), s, p, 0, s.procs[p].at.checkPc, true);
  }

  lemma ReplayCalls(s: State, p: Pid, s': State)
    requires Comes(s) && p in s.procs && s.procs[p].build == 0 && s.procs[p].at.Replaying?
    requires ActsAlone(s, Step(p, true, Zip))
    requires var job, pc := s.procs[p].at.job, s.procs[p].at.replayPc;
             s' == Move(WriteReplay(s, 0, job, pc, true, Zip), p, 0, Some(AfterReplay(s, 0, job, pc, true, Zip)))
    ensures Comes(s')
  {
    ReplayStepLeads(Transactional(), Init(), s, p, 0, s.procs[p].at.job, s.procs[p].at.replayPc, true, Zip);
  }

  /** Build 0 before its check begins. */
  function Begun(files: Files, procs: map<Pid, Proc>): State {
    Fresh(Started, procs, NO_LOG).(files := map[0 := files])
  }

  lemma RowInserted()
    ensures Comes(Begun(Files(Missing, Missing), map[]).(heads := map[]))
  {
    LeadsToSelf(Transactional(), Init());
    var s := Init().(pending := map[1 := PendingBuild(CHANNEL, None)]);
    Next(Init(), ReadHead(1, CHANNEL));
    Next(s, InsertBuild(1, 0));
    assert Do(s, InsertBuild(1, 0)) == Begun(Files(Missing, Missing), map[]).(heads := map[]);
  }

  lemma PatchOpened()
    ensures Comes(Begun(Files(Uploading, Missing), map[]))
  {
    RowInserted();
    var s := Begun(Files(Missing, Missing), map[]);
    assert s.(heads := map[]).(heads := map[][CHANNEL := None]) == s;
    Next(s.(heads := map[]), OpenChannel(CHANNEL));
    Next(s, OpenPatch(0));
    assert Do(s, OpenPatch(0)) == Begun(Files(Uploading, Missing), map[]);
  }

  lemma Created()
    ensures Comes(Begun(Files(Uploading, Uploading), map[]))
  {
    PatchOpened();
    var s := Begun(Files(Uploading, Missing), map[]);
    Next(s, OpenSignature(0));
    assert Do(s, OpenSignature(0)) == Begun(Files(Uploading, Uploading), map[]);
  }

  lemma PatchFinalized()
    ensures Comes(Begun(Files(Ready(PATCH, 1), Uploading), map[1 := Proc(0, Checking(CheckBuild(1)))]))
  {
    Created();
    var s := Begun(Files(Uploading, Uploading), map[]);
    Next(s, FinalizePatch(1, 0, PATCH, 1));
    assert Do(s, FinalizePatch(1, 0, PATCH, 1))
        == Begun(Files(Ready(PATCH, 1), Uploading), map[1 := Proc(0, Checking(CheckBuild(1)))]);
  }

  lemma Finalized()
    ensures Comes(Fresh(Started, Pair(Checking(CheckBuild(1)), Checking(CheckBuild(1))), NO_LOG))
  {
    PatchFinalized();
    var s := Begun(Files(Ready(PATCH, 1), Uploading), map[1 := Proc(0, Checking(CheckBuild(1)))]);
    Next(s, FinalizeSignature(2, 0, EMPTY_CONTAINER, 1));
    assert Do(s, FinalizeSignature(2, 0, EMPTY_CONTAINER, 1))
        == Fresh(Started, Pair(Checking(CheckBuild(1)), Checking(CheckBuild(1))), NO_LOG);
  }

  lemma AboutToClaim()
    ensures Comes(Fresh(Started, Pair(Checking(Claim(1)), Checking(CheckBuild(1))), NO_LOG))
  {
    Finalized();
    var second := Checking(CheckBuild(1));
    var s := Fresh(Started, Pair(Checking(CheckFiles(1, Started)), second), NO_LOG);
    CheckCalls(Fresh(Started, Pair(Checking(CheckBuild(1)), second), NO_LOG), 1, s);
    CheckCalls(s, 1, Fresh(Started, Pair(Checking(Claim(1)), second), NO_LOG));
  }

  /** The claim is made by process 1. */
  lemma Claimed()
    ensures Comes(LinkingFirst(PatchRow))
  {
    AboutToClaim();
    CheckCalls(Fresh(Started, Pair(Checking(Claim(1)), Checking(CheckBuild(1))), NO_LOG), 1, LinkingFirst(PatchRow));
  }

  function Linking(phase: LinkPhase): Pc {
    Replaying(Generate(1), Link([0], 0, EMPTY_TREE, None, phase))
  }

  lemma EmptyPatch()
    ensures ApplyStep(PATCH, EMPTY_CONTAINER, EMPTY_TREE, None) == Some(EMPTY_TREE)
  {
    assert Apply(PATCH, EMPTY_TREE).value == EMPTY_TREE;
  }

  /** Process 1 generates, process 2 has only just begun. */
  function LinkingFirst(phase: LinkPhase): State {
    Fresh(Processing, Pair(Linking(phase), Checking(CheckBuild(1))), CLAIMED)
  }

  lemma PatchRowRead()
    ensures Comes(LinkingFirst(SignatureRow))
  {
    Claimed();
    ReplayCalls(LinkingFirst(PatchRow), 1, LinkingFirst(SignatureRow));
  }

  lemma RowsRead()
    ensures Comes(LinkingFirst(PatchGet))
  {
    PatchRowRead();
    ReplayCalls(LinkingFirst(SignatureRow), 1, LinkingFirst(PatchGet));
  }

  lemma PatchRead()
    ensures Comes(LinkingFirst(SignatureGet(PATCH)))
  {
    RowsRead();
    ReplayCalls(LinkingFirst(PatchGet), 1, LinkingFirst(SignatureGet(PATCH)));
  }

  lemma Replayed()
    ensures Comes(Fresh(Processing, Pair(Replaying(Generate(1), Put(EMPTY_TREE)), Checking(CheckBuild(1))),
                            CLAIMED))
  {
    PatchRead();
    EmptyPatch();
    var second := Checking(CheckBuild(1));
    ReplayCalls(LinkingFirst(SignatureGet(PATCH)), 1,
                Fresh(Processing, Pair(Replaying(Generate(1), Put(EMPTY_TREE)), second), CLAIMED));
  }

  function Unsaved(at: Pc): State {
    World(Processing, map[], map[KEY := Archive(Zip, EMPTY_TREE)], 1, None, map[], Pair(at, Checking(CheckBuild(1))),
          CLAIMED)
  }

  lemma Packed()
    ensures Comes(Unsaved(Replaying(Generate(1), Save(KEY))))
  {
    Replayed();
    ReplayCalls(Fresh(Processing, Pair(Replaying(Generate(1), Put(EMPTY_TREE)), Checking(CheckBuild(1))), CLAIMED), 1,
                Unsaved(Replaying(Generate(1), Save(KEY))));
  }

  lemma Generated()
    ensures Comes(Stored(Processing, None, map[], Pair(Checking(CheckBuild(2)), Checking(CheckBuild(1))), INSERTED))
  {
    Packed();
    ReplayCalls(Unsaved(Replaying(Generate(1), Save(KEY))), 1,
                Stored(Processing, None, map[], Pair(Checking(CheckBuild(2)), Checking(CheckBuild(1))), INSERTED));
  }

  lemma BothSeeProcessing()
    ensures Comes(Stored(Processing, None, map[], Pair(Checking(CheckFiles(2, Processing)),
                                                           Checking(CheckFiles(1, Processing))), INSERTED))
  {
    Generated();
    var s0 := Stored(Processing, None, map[], Pair(Checking(CheckBuild(2)), Checking(CheckBuild(1))), INSERTED);
    var s1 := Stored(Processing, None, map[], Pair(Checking(CheckFiles(2, Processing)), Checking(CheckBuild(1))),
                     INSERTED);
    CheckCalls(s0, 1, s1);
    CheckCalls(s1, 2, Stored(Processing, None, map[], Pair(Checking(CheckFiles(2, Processing)),
                                                           Checking(CheckFiles(1, Processing))), INSERTED));
  }

  /** Both finalizers have seen the archive and the state processing. */
  lemma BothAboutToComplete()
    ensures Comes(Stored(Processing, None, map[], Pair(Checking(Complete), Checking(Complete)), INSERTED))
  {
    BothSeeProcessing();
    var s2 := Stored(Processing, None, map[], Pair(Checking(CheckFiles(2, Processing)),
                                                   Checking(CheckFiles(1, Processing))), INSERTED);
    var s3 := Stored(Processing, None, map[], Pair(Checking(Complete), Checking(CheckFiles(1, Processing))), INSERTED);
    CheckCalls(s2, 1, s3);
    CheckCalls(s3, 2, Stored(Processing, None, map[], Pair(Checking(Complete), Checking(Complete)), INSERTED));
  }

  lemma CompletedFirst()
    ensures Comes(Stored(Completed, None, map[], Pair(Checking(Crown), Checking(Complete)), COMPLETED))
  {
    BothAboutToComplete();
    var s0 := Stored(Processing, None, map[], Pair(Checking(Complete), Checking(Complete)), INSERTED);
    CheckCalls(s0, 1, Stored(Completed, None, map[], Pair(Checking(Crown), Checking(Complete)), COMPLETED));
  }

  lemma CrownedOnce()
    ensures Comes(Stored(Completed, Some(0), map[], map[2 := Proc(0, Checking(Complete))], CROWNED))
  {
    CompletedFirst();
    var s1 := Stored(Completed, None, map[], Pair(Checking(Crown), Checking(Complete)), COMPLETED);
    var s2 := Stored(Completed, Some(0), map[], map[2 := Proc(0, Checking(Complete))], CROWNED);
    assert s1.procs - {1} == s2.procs && s1.heads[CHANNEL := Some(0)] == s2.heads;
    CheckCalls(s1, 1, s2);
  }

  // ---------- heads ----------

  /** Two finalizers make one build the head twice, although its completion and the
      advance of the head are one step each time. */
  lemma CrownedTwice()
    ensures exists s :: Leads(Undivided(), Init(), s) && s.log.crowned[0] == 2
  {
    CrownedOnce();
    var s := Stored(Completed, Some(0), map[], map[2 := Proc(0, Checking(Complete))], CROWNED);
    LeadsLoosely(Transactional(), Undivided(), Init(), s);
    CompletionIsDone(s, 2, 0, Zip);
    LeadsNext(Undivided(), Init(), s, Step(2, true, Zip));
    CheckStepLeads(Undivided(), Init(), CompletedBy(s, 2, 0), 2, 0, Crown, true);
    assert Crowned(CompletedBy(s, 2, 0), 2, 0).log.crowned[0] == 2;
  }

  /** A build between completion and head, with an eviction under way. */
  function Guarding(locks: map<BuildId, Pid>, evict: EvictPc): State {
    At(Stored(Completed, None, locks, Pair(Checking(Crown), Checking(Complete)), COMPLETED), 3, 0, Evicting(evict))
  }

  lemma EvictCalls(locks: map<BuildId, Pid>, pc: EvictPc, next: EvictPc)
    requires Leads(Once(), Init(), Guarding(locks, pc)) && !pc.EvictMark? && !pc.DeleteObject? && !pc.ClearPath?
    requires !pc.EvictLock? && !pc.SweepLock?
    requires AfterEvict(Guarding(locks, pc), 0, pc, true) == Some(Evicting(next))
    ensures Leads(Once(), Init(), Guarding(locks, next))
  {
    EvictStepLeads(Once(), Init(), Guarding(locks, pc), 3, 0, pc, true);
    MovesAt(Stored(Completed, None, locks, Pair(Checking(Crown), Checking(Complete)), COMPLETED), 3, 0,
            Evicting(pc), Evicting(next));
  }

  lemma Listed()
    ensures Leads(Once(), Init(), Guarding(map[0 := 3], EvictRead))
  {
    CompletedFirst();
    var s := Stored(Completed, None, map[], Pair(Checking(Crown), Checking(Complete)), COMPLETED);
    LeadsLoosely(Transactional(), Once(), Init(), s);
    LeadsNext(Once(), Init(), s, ListForEviction(3, 0));
    EvictStepLeads(Once(), Init(), Guarding(map[], EvictLock), 3, 0, EvictLock, true);
    assert s.locks[0 := 3] == map[0 := 3];
    MovesAt(s.(locks := map[0 := 3]), 3, 0, Evicting(EvictLock), Evicting(EvictRead));
  }

  /** The guard on heads is passed before the build becomes head. */
  lemma ListedTooEarly()
    ensures Leads(Once(), Init(), Guarding(map[0 := 3], Guard(ROW, BuildCompleted)))
  {
    Listed();
    EvictCalls(map[0 := 3], EvictRead, Guard(ROW, NotHead));
    EvictCalls(map[0 := 3], Guard(ROW, NotHead), Guard(ROW, BuildCompleted));
  }

  /** Build 0 is head, with its eviction under way. */
  function HeadMarked(evict: EvictPc): State {
    At(Stored(Completed, Some(0), map[0 := 3], map[2 := Proc(0, Checking(Complete))], CROWNED), 3, 0, Evicting(evict))
  }

  lemma CrownedLate(s: State)
    requires s == Guarding(map[0 := 3], Guard(ROW, BuildCompleted))
    ensures Crowned(s, 1, 0) == HeadMarked(Guard(ROW, BuildCompleted))
  {
    assert s.procs - {1} == HeadMarked(Guard(ROW, BuildCompleted)).procs;
    assert s.heads[CHANNEL := Some(0)] == map[CHANNEL := Some(0)];
  }

  lemma HeadAfterGuard()
    ensures Leads(Once(), Init(), HeadMarked(Guard(ROW, BuildCompleted)))
  {
    ListedTooEarly();
    var s := Guarding(map[0 := 3], Guard(ROW, BuildCompleted));
    CheckStepLeads(Once(), Init(), s, 1, 0, Crown, true);
    CrownedLate(s);
  }

  lemma HeadIsEvictable(evict: EvictPc)
    ensures Evictable(HeadMarked(evict), 0) && LetsPass(Once(), HeadMarked(evict), 3, 0, ROW)
  {
  }

  lemma AboutToEvictHead()
    ensures Leads(Once(), Init(), HeadMarked(EvictMark(ROW)))
  {
    HeadAfterGuard();
    var s := HeadMarked(Guard(ROW, BuildCompleted));
    assert At(s, 3, 0, Evicting(Guard(ROW, BuildCompleted))) == s;
    assert At(s, 3, 0, Evicting(EvictMark(ROW))) == HeadMarked(EvictMark(ROW));
    HeadIsEvictable(Guard(ROW, BuildCompleted));
    GuardsFollow(Once(), Init(), s, 3, 0, ROW, BuildCompleted);
  }

  /** A current head is evicted, although no build is completed twice. */
  lemma HeadIsEvicted()
    ensures exists s :: Leads(Once(), Init(), s) && HeadEvicted(s, 0)
  {
    AboutToEvictHead();
    var s := HeadMarked(EvictMark(ROW));
    assert At(s, 3, 0, Evicting(EvictMark(ROW))) == s;
    assert IsHead(s, 0) by { assert s.heads[CHANNEL] == Some(0); }
    MarkLands(Once(), Init(), s, 3, 0, ROW);
  }

  // ---------- a second look that fails ----------

  /** The archive of build 0 is requested; its patch object is gone. */
  function Asking(locks: map<BuildId, Pid>): State {
    Stored(Completed, None, locks, Pair(Checking(Crown), Checking(Complete)), COMPLETED).(lost := {0})
  }

  lemma Asked()
    ensures Reachable(At(Asking(map[]), 3, 0, Ensuring(WarmRow(false))))
  {
    CompletedFirst();
    var s0 := Stored(Completed, None, map[], Pair(Checking(Crown), Checking(Complete)), COMPLETED);
    LeadsAnyhow(Transactional(), Init(), s0);
    LeadsNext(AnyEvent(), Init(), s0, LosePatch(0));
    assert Do(s0, LosePatch(0)) == Asking(map[]);
    LeadsNext(AnyEvent(), Init(), Asking(map[]), Ensure(3, 0));
  }

  lemma FirstLookFailed()
    ensures Reachable(At(Asking(map[0 := 3]), 3, 0, Ensuring(WarmRow(true))))
  {
    Asked();
    var s := Asking(map[]);
    EnsureStepLeads(AnyEvent(), Init(), At(s, 3, 0, Ensuring(WarmRow(false))), 3, 0, WarmRow(false), false);
    MovesAt(s, 3, 0, Ensuring(WarmRow(false)), Ensuring(LockWait));
    EnsureStepLeads(AnyEvent(), Init(), At(s, 3, 0, Ensuring(LockWait)), 3, 0, LockWait, true);
    assert s.locks[0 := 3] == map[0 := 3];
    MovesAt(Asking(map[0 := 3]), 3, 0, Ensuring(LockWait), Ensuring(WarmRow(true)));
  }

  lemma SecondLookFailed()
    ensures Reachable(At(Asking(map[0 := 3]), 3, 0, Ensuring(RebuildRow)))
  {
    FirstLookFailed();
    var s := Asking(map[0 := 3]);
    EnsureStepLeads(AnyEvent(), Init(), At(s, 3, 0, Ensuring(WarmRow(true))), 3, 0, WarmRow(true), false);
    MovesAt(s, 3, 0, Ensuring(WarmRow(true)), Ensuring(RebuildBuild));
    EnsureStepLeads(AnyEvent(), Init(), At(s, 3, 0, Ensuring(RebuildBuild)), 3, 0, RebuildBuild, true);
    MovesAt(s, 3, 0, Ensuring(RebuildBuild), Ensuring(RebuildRow));
  }

  /** A warm archive becomes cold although nothing was evicted and nothing rebuilt,
      and a completed build whose patch object is gone is no longer available. */
  lemma SecondLookIsNeeded()
    ensures exists s :: Reachable(s) && Balance(s, 0) == 1 && 0 in s.log.completed && !Available(s, 0)
  {
    SecondLookFailed();
    var s := Asking(map[0 := 3]);
    RemarkFollows(AnyEvent(), Init(), s, 3, 0);
    assert Balance(At(Remarked(s, 0), 3, 0, ReplayStart(ROW, 0)), 0) == 1;
  }
}
