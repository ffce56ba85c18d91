/** What a rebuild needs: as long as no build has been lost for good, a completed
    build that is cold can be rebuilt exactly when its cold stretch is within the
    chain limit. */
module ServerRebuild {
  import opened Records
  import opened Trees
  import opened Server
  import opened ServerInvariant
  import opened ServerSteps
  import opened ServerRuns
  import opened ServerAvailability
  import opened RebuildPlan
  import opened RebuildChain

  /** The server with state rebuilding written to the row of b. */
  function Marked(s: State, b: BuildId): State {
    s.(arch := s.arch[b := RebuildingCopy(RowOf(s.arch, b))])
  }

  function RowOf(arch: map<BuildId, ArchiveRow>, b: BuildId): Option<ArchiveRow> {
    if b in arch then Some(arch[b]) else None
  }

  /** A plan exists and its replay succeeds. */
  ghost predicate Rebuildable(s: State, b: BuildId) {
    exists c: Collected :: Plan(s, b, c.chain, c.base) && Replayed(s, c).Some?
  }

  lemma OnePlanDecides(s: State, mid: State, b: BuildId, c: Collected)
    requires Plan(s, b, c.chain, c.base)
    requires mid.files == s.files && mid.lost == s.lost && mid.arch == s.arch && mid.objects == s.objects
    ensures Rebuildable(s, b) <==> Replayed(mid, c).Some?
  {
    if Start(s, c.base).Some? {
      SameReplay(s, mid, c.chain, Start(s, c.base).value.0, Start(s, c.base).value.1);
    }
    assert Start(s, c.base) == Start(mid, c.base);
    forall other: Collected | Plan(s, b, other.chain, other.base) ensures other == c {
      PlanIsUnique(s, b, c.chain, c.base, other.chain, other.base);
    }
  }

  /** A completed build whose chain can be replayed once its own row is marked. */
  ghost predicate CanRebuild(s: State, b: BuildId) {
    b in s.status && s.status[b] == Completed && Rebuildable(Marked(s, b), b)
  }

  lemma SamePlan(s: State, s': State, b: BuildId, c: Collected)
    requires s'.builds == s.builds && s'.files == s.files && s'.lost == s.lost && s'.arch == s.arch
    requires s'.objects == s.objects
    ensures Plan(s', b, c.chain, c.base) <==> Plan(s, b, c.chain, c.base)
    ensures Replayed(s', c) == Replayed(s, c)
  {
    assert Start(s, c.base) == Start(s', c.base);
    if Start(s, c.base).Some? { SameReplay(s, s', c.chain, Start(s, c.base).value.0, Start(s, c.base).value.1); }
  }

  lemma SameRebuild(s: State, s': State, b: BuildId)
    requires s'.builds == s.builds && s'.files == s.files && s'.lost == s.lost
    requires s'.arch == s.arch && s'.objects == s.objects
    requires (b in s'.status <==> b in s.status) && (b in s.status ==> s'.status[b] == s.status[b])
    ensures CanRebuild(s', b) <==> CanRebuild(s, b)
  {
    var m, m' := Marked(s, b), Marked(s', b);
    forall c: Collected
      ensures Plan(m, b, c.chain, c.base) <==> Plan(m', b, c.chain, c.base)
      ensures Replayed(m, c).Some? <==> Replayed(m', c).Some?
    {
      SamePlan(m, m', b, c);
    }
  }

  // ---------- cold builds ----------

  /** Marking b's own row changes nothing a replay of b reads. */
  lemma {:induction false} MarkKeepsReplayable(s: State, b: BuildId, x: BuildId)
    requires b in s.arch && x <= b && Replayable(s, x)
    ensures Replayable(Marked(s, b), x) && ColdLinks(Marked(s, b), x) == ColdLinks(s, x)
    decreases x
  {
    match s.builds[x].parent
    case None =>
    case Some(parent) =>
      assert Warm(Marked(s, b), parent) == Warm(s, parent);
      if !Warm(s, parent) { MarkKeepsReplayable(s, b, parent); }
  }

  lemma MarkedTables(s: State, b: BuildId)
    requires Tables(s) && b in s.arch && b in s.log.completed
    ensures Tables(Marked(s, b))
  {
    assert RowOk(s, b);
    RewriteTables(s, Marked(s, b), b, RebuildingCopy(Some(s.arch[b])));
  }

  lemma ShortCanRebuild(s: State, b: BuildId)
    requires Tables(s) && b in s.log.completed && Replayable(s, b) && ColdLinks(s, b) <= 10000
    ensures Rebuildable(s, b)
  {
    var chain, base := PlanFor(s, b);
    StoredPlanReplays(s, b, Collected(chain, base));
    assert Plan(s, b, Collected(chain, base).chain, Collected(chain, base).base);
  }

  /** Of a completed build that is still available. */
  lemma CanRebuildIffShort(s: State, b: BuildId)
    requires Tables(s) && b in s.log.completed && Replayable(s, b)
    ensures CanRebuild(s, b) <==> ColdLinks(s, b) <= 10000
  {
    assert LifeOk(s, b);
    MarkedTables(s, b);
    MarkKeepsReplayable(s, b, b);
    if ColdLinks(s, b) <= 10000 { ShortCanRebuild(Marked(s, b), b); }
    if c: Collected :| Plan(Marked(s, b), b, c.chain, c.base) { PlanIsShort(Marked(s, b), b, c.chain, c.base); }
  }

  /** Whatever was evicted, lost or cut short by crashes before: a completed build
      is warm, or it can be rebuilt exactly when no more than the limit of links
      lie between it and its nearest warm ancestor or the root. */
  lemma CompletedIsServable(states: seq<State>, events: seq<Event>, n: nat, b: BuildId)
    requires IsRun(states, events) && n < |states| && NothingLost(states, events, n)
    requires b in states[n].status && states[n].status[b] == Completed
    ensures var s := states[n];
            b in s.builds && (Warm(s, b) || (CanRebuild(s, b) <==> ColdLinks(s, b) <= 10000))
  {
    var s := states[n];
    RunKeeps(states, events, n);
    assert LifeOk(s, b);
    CompletedBuildsAreAvailable(states, events, n);
    if !Warm(s, b) { CanRebuildIffShort(s, b); }
  }

  /** What a rebuild then stores is the fold of every patch from the root. */
  lemma RebuiltIsFold(states: seq<State>, events: seq<Event>, n: nat, b: BuildId, c: Collected)
    requires IsRun(states, events) && n < |states|
    requires b in states[n].status && states[n].status[b] == Completed
    requires Plan(Marked(states[n], b), b, c.chain, c.base) && Replayed(Marked(states[n], b), c).Some?
    ensures Replayed(Marked(states[n], b), c) == Fold(states[n].builds, states[n].files, b)
  {
    var s := states[n];
    RunKeeps(states, events, n);
    assert LifeOk(s, b);
    MarkedTables(s, b);
    ReplayedIsFold(Marked(s, b), b, c);
  }
}
