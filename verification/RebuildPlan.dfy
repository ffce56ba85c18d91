/** The plan that collectRebuildChain looks for: it is unique, and an available
    build has one exactly when its cold stretch is within the chain limit. */
module RebuildPlan {
  import opened Records
  import opened Trees
  import opened Server
  import opened ServerInvariant
  import opened ServerAvailability

  /** chain leads, oldest first, from the child of the nearest warm ancestor (or
      from a root) to build b; every link has its patch and signature rows. */
  ghost predicate Plan(s: State, b: BuildId, chain: seq<BuildId>, base: Option<BuildId>) {
    && 1 <= |chain| <= 10000 + (if base.None? then 1 else 0)
    && Walked(s, b, chain)
    && base == s.builds[chain[0]].parent
    && (base.Some? ==> base.value in s.builds && Warm(s, base.value))
    && (forall i | 0 <= i < |chain| :: FilesReady(s.files, chain[i]))
  }

  /** A walk along parents from b that has met no warm ancestor. */
  ghost predicate Walked(s: State, b: BuildId, chain: seq<BuildId>) {
    && |chain| >= 1 && chain[|chain| - 1] == b
    && (forall i | 0 <= i < |chain| :: chain[i] in s.builds)
    && (forall i | 0 < i < |chain| :: s.builds[chain[i]].parent == Some(chain[i - 1]))
    && (forall i | 0 <= i < |chain| - 1 :: !Warm(s, chain[i]))
  }

  /** Two walks from the same build agree where both have been. */
  lemma {:induction false} WalksAgree(s: State, b: BuildId, chain: seq<BuildId>, other: seq<BuildId>, k: nat)
    requires Walked(s, b, chain) && Walked(s, b, other)
    requires k < |chain| && k < |other|
    ensures chain[|chain| - 1 - k] == other[|other| - 1 - k]
  {
    if k > 0 {
      WalksAgree(s, b, chain, other, k - 1);
    }
  }

  /** The walk cannot pass the first build of a plan: a root or the child of a
      warm build. */
  lemma PlanStopsWalk(s: State, b: BuildId, chain: seq<BuildId>, base: Option<BuildId>, walk: seq<BuildId>)
    requires Plan(s, b, chain, base) && Walked(s, b, walk)
    ensures |walk| <= |chain|
  {
    if |walk| > |chain| {
      var i := |walk| - |chain|;
      assert s.builds[walk[i]].parent == Some(walk[i - 1]) && !Warm(s, walk[i - 1]);
      WalksAgree(s, b, chain, walk, |chain| - 1);
    }
  }

  /** A plan is never shorter than a walk: the walk is the end of its chain. */
  lemma PlanExtendsWalk(s: State, b: BuildId, chain: seq<BuildId>, base: Option<BuildId>, walk: seq<BuildId>)
    requires Plan(s, b, chain, base) && Walked(s, b, walk)
    ensures |walk| <= |chain| && walk == chain[|chain| - |walk|..]
  {
    if |walk| > |chain| { PlanStopsWalk(s, b, chain, base, walk); }
    forall i | 0 <= i < |walk| ensures walk[i] == chain[|chain| - |walk| + i] {
      WalksAgree(s, b, chain, walk, |walk| - 1 - i);
    }
  }

  lemma PlanIsUnique(s: State, b: BuildId, chain: seq<BuildId>, base: Option<BuildId>,
                     chain': seq<BuildId>, base': Option<BuildId>)
    requires Plan(s, b, chain, base) && Plan(s, b, chain', base')
    ensures chain == chain' && base == base'
  {
    PlanExtendsWalk(s, b, chain, base, chain');
    PlanExtendsWalk(s, b, chain', base', chain);
  }

  /** Every member's parent is a cold member: a cycle of parents, and builds above it. */
  ghost predicate ColdCycle(s: State, cycle: set<BuildId>) {
    forall x | x in cycle ::
      x in s.builds && s.builds[x].parent.Some? && s.builds[x].parent.value in cycle
      && !Warm(s, s.builds[x].parent.value)
  }

  /** A walk from a member never leaves. */
  lemma {:induction false} WalkStaysOnCycle(s: State, b: BuildId, cycle: set<BuildId>, chain: seq<BuildId>, k: nat)
    requires ColdCycle(s, cycle) && b in cycle && Walked(s, b, chain) && k < |chain|
    ensures chain[|chain| - 1 - k] in cycle
  {
    if k > 0 {
      WalkStaysOnCycle(s, b, cycle, chain, k - 1);
      assert s.builds[chain[|chain| - k]].parent == Some(chain[|chain| - 1 - k]);
    }
  }

  /** Whatever else is in the table, no build on or above a cold cycle has a plan. */
  lemma CyclesHaveNoPlan(s: State, b: BuildId, cycle: set<BuildId>)
    requires ColdCycle(s, cycle) && b in cycle
    ensures forall chain, base :: !Plan(s, b, chain, base)
  {
    forall chain, base ensures !Plan(s, b, chain, base) {
      if Walked(s, b, chain) { WalkStaysOnCycle(s, b, cycle, chain, |chain| - 1); }
    }
  }

  // ---------- every available build has a plan ----------

  /** Every link of the chain has been checked once and is still stored. */
  ghost predicate Stored(s: State, chain: seq<BuildId>) {
    forall i | 0 <= i < |chain| :: LinkChecked(s.builds, s.files, chain[i]) && PatchStored(s, chain[i])
  }

  /** The parent links a rebuild of b follows: to the nearest warm ancestor or to
      the root. */
  ghost function ColdLinks(s: State, b: BuildId): nat
    requires b in s.builds
    decreases b
  {
    match s.builds[b].parent
    case None => 0
    case Some(parent) =>
      if parent < b && parent in s.builds && !Warm(s, parent) then 1 + ColdLinks(s, parent) else 1
  }

  lemma {:induction false} PlanFor(s: State, b: BuildId) returns (chain: seq<BuildId>, base: Option<BuildId>)
    requires Lineage(s) && Replayable(s, b) && ColdLinks(s, b) <= 10000
    ensures Plan(s, b, chain, base) && Stored(s, chain)
    ensures |chain| == ColdLinks(s, b) + (if base.None? then 1 else 0)
    decreases b
  {
    assert BuildOk(s, b);
    match s.builds[b].parent
    case None => chain, base := [b], None;
    case Some(parent) =>
      if Warm(s, parent) {
        chain, base := [b], Some(parent);
      } else {
        chain, base := PlanFor(s, parent);
        chain := chain + [b];
      }
  }

  /** No plan exists beyond the limit, so the rebuild of a longer cold stretch fails. */
  lemma {:induction false} WalkCountsLinks(s: State, b: BuildId, chain: seq<BuildId>)
    requires Lineage(s) && Walked(s, b, chain)
    ensures ColdLinks(s, b) == |chain| - 1 + ColdLinks(s, chain[0])
    decreases |chain|
  {
    if |chain| > 1 {
      assert BuildOk(s, b);
      var shorter := chain[..|chain| - 1];
      WalkCountsLinks(s, chain[|chain| - 2], shorter);
    }
  }

  lemma PlanIsShort(s: State, b: BuildId, chain: seq<BuildId>, base: Option<BuildId>)
    requires Lineage(s) && Plan(s, b, chain, base)
    ensures ColdLinks(s, b) == |chain| - (if base.None? then 1 else 0) <= 10000
  {
    WalkCountsLinks(s, b, chain);
    assert BuildOk(s, chain[0]);
  }

  /** A replayable build has a plan exactly when its cold stretch is short enough. */
  lemma PlanExistsIffShort(s: State, b: BuildId)
    requires Lineage(s) && Replayable(s, b)
    ensures (exists chain, base :: Plan(s, b, chain, base)) <==> ColdLinks(s, b) <= 10000
  {
    if ColdLinks(s, b) <= 10000 { var chain, base := PlanFor(s, b); }
    if chain, base :| Plan(s, b, chain, base) { PlanIsShort(s, b, chain, base); }
  }
}
