/** What a walk along parents says about the plan, on any rows, cyclic ones included;
    and what replaying a plan gives, which does not depend on the base it started
    from. */
module RebuildChain {
  import opened Records
  import opened Trees
  import opened Server
  import opened ServerInvariant
  import opened ServerRuns
  import opened RebuildPlan

  // ---------- finding the chain ----------

  /** A plan goes at least as far up as any walk, so it ends where the walk must. */
  lemma PlanEndsWalk(s: State, b: BuildId, walk: seq<BuildId>, chain: seq<BuildId>, base: Option<BuildId>)
    requires Walked(s, b, walk) && Plan(s, b, chain, base)
    requires s.builds[walk[0]].parent.Some? ==> Warm(s, s.builds[walk[0]].parent.value)
    ensures chain == walk
  {
    var i := |chain| - |walk|;
    assert i > 0 ==> s.builds[chain[i]].parent == Some(chain[i - 1]) && !Warm(s, chain[i - 1]);
    PlanExtendsWalk(s, b, chain, base, walk);
  }

  /** No plan where the walk is too long or meets a missing parent. */
  lemma StuckWalkHasNoPlan(s: State, b: BuildId, walk: seq<BuildId>)
    requires Walked(s, b, walk) && s.builds[walk[0]].parent.Some?
    requires |walk| > MAX_CHAIN_LENGTH || s.builds[walk[0]].parent.value !in s.builds
    ensures forall chain, base :: !Plan(s, b, chain, base)
  {
    forall chain, base ensures !Plan(s, b, chain, base) {
      if Plan(s, b, chain, base) {
        var i := |chain| - |walk|;
        assert i > 0 ==> s.builds[chain[i]].parent == Some(chain[i - 1]);
        PlanExtendsWalk(s, b, chain, base, walk);
      }
    }
  }

  lemma UnreadyWalkHasNoPlan(s: State, b: BuildId, walk: seq<BuildId>, index: nat)
    requires Walked(s, b, walk) && index < |walk| && !FilesReady(s.files, walk[index])
    requires s.builds[walk[0]].parent.Some? ==> Warm(s, s.builds[walk[0]].parent.value)
    ensures forall chain, base :: !Plan(s, b, chain, base)
  {
    forall chain, base ensures !Plan(s, b, chain, base) {
      if Plan(s, b, chain, base) { PlanEndsWalk(s, b, walk, chain, base); }
    }
  }

  lemma WalkGrows(s: State, b: BuildId, walk: seq<BuildId>, parent: BuildId)
    requires Walked(s, b, walk) && s.builds[walk[0]].parent == Some(parent) && parent in s.builds && !Warm(s, parent)
    ensures Walked(s, b, [parent] + walk)
  {
    var longer := [parent] + walk;
    forall i | 0 < i < |longer| ensures s.builds[longer[i]].parent == Some(longer[i - 1]) {
      assert longer[i] == walk[i - 1];
      assert i > 1 ==> longer[i - 1] == walk[i - 2];
    }
  }

  datatype Collected = Collected(chain: seq<BuildId>, base: Option<BuildId>)

  /** Builds following each other as parent and child up to b, starting from a root or
      from the child of a warm build: what a walk is sure of even when some of its looks
      fail and a warm build is taken for a cold one. */
  ghost predicate Lined(s: State, b: BuildId, c: Collected) {
    && 1 <= |c.chain| <= 10001 && c.chain[|c.chain| - 1] == b
    && (forall i | 0 <= i < |c.chain| :: c.chain[i] in s.builds)
    && (forall i | 0 < i < |c.chain| :: s.builds[c.chain[i]].parent == Some(c.chain[i - 1]))
    && c.base == s.builds[c.chain[0]].parent
    && (c.base.Some? ==> c.base.value in s.builds && Warm(s, c.base.value))
  }

  /** The walk goes all the way: to a root or to the child of a warm build. */
  ghost predicate WholeWalk(s: State, b: BuildId, c: Collected) {
    && Walked(s, b, c.chain) && |c.chain| <= 10000 + (if c.base.None? then 1 else 0)
    && c.base == s.builds[c.chain[0]].parent
    && (c.base.Some? ==> c.base.value in s.builds && Warm(s, c.base.value))
  }

  // ---------- replaying it ----------

  /** Applying the links in order, each checked against the one before. */
  function ReplayLinks(s: State, chain: seq<BuildId>, tree: Tree, expected: Option<Container>): Option<Tree>
    decreases |chain|
  {
    if chain == [] then Some(tree)
    else if !PatchStored(s, chain[0]) || !s.files[chain[0]].signature.Ready? then None
    else
      var files := s.files[chain[0]];
      match ApplyStep(files.patch.content, files.signature.content, tree, expected)
      case None => None
      case Some(output) => ReplayLinks(s, chain[1..], output, Some(files.signature.content))
  }

  lemma {:induction false} SameReplay(s: State, s': State, chain: seq<BuildId>, tree: Tree, expected: Option<Container>)
    requires s.files == s'.files && s.lost == s'.lost
    ensures ReplayLinks(s, chain, tree, expected) == ReplayLinks(s', chain, tree, expected)
    decreases |chain|
  {
    if chain != [] && PatchStored(s, chain[0]) && s.files[chain[0]].signature.Ready? {
      var files := s.files[chain[0]];
      var output := ApplyStep(files.patch.content, files.signature.content, tree, expected);
      if output.Some? { SameReplay(s, s', chain[1..], output.value, Some(files.signature.content)); }
    }
  }

  /** The tree and the container a replay starts from. */
  function Start(s: State, base: Option<BuildId>): Option<(Tree, Option<Container>)> {
    match base
    case None => Some((EMPTY_TREE, None))
    case Some(parent) =>
      if Warm(s, parent) && s.objects[s.arch[parent].path.value].format == s.arch[parent].path.value.format
         && parent in s.files && s.files[parent].signature.Ready?
      then Some((s.objects[s.arch[parent].path.value].tree, Some(s.files[parent].signature.content)))
      else None
  }

  function Replayed(s: State, plan: Collected): Option<Tree> {
    match Start(s, plan.base)
    case None => None
    case Some(start) => ReplayLinks(s, plan.chain, start.0, start.1)
  }

  // ---------- the result does not depend on the base ----------

  /** Links whose parents are older and follow each other. */
  ghost predicate Linked(s: State, chain: seq<BuildId>) {
    && (forall i | 0 <= i < |chain| :: chain[i] in s.builds)
    && (forall i | 0 < i < |chain| :: s.builds[chain[i]].parent == Some(chain[i - 1]) && chain[i - 1] < chain[i])
  }

  /** A replay that starts from the tree before its first link ends with the fold
      of every patch from the root. */
  lemma {:induction false} ReplayIsFold(s: State, chain: seq<BuildId>, tree: Tree, expected: Option<Container>)
    requires |chain| >= 1 && Linked(s, chain) && Before(s.builds, s.files, chain[0]) == Some(tree)
    requires ReplayLinks(s, chain, tree, expected).Some?
    ensures Fold(s.builds, s.files, chain[|chain| - 1]) == ReplayLinks(s, chain, tree, expected)
    decreases |chain|
  {
    var output := ApplyStep(s.files[chain[0]].patch.content, s.files[chain[0]].signature.content, tree, expected).value;
    assert Fold(s.builds, s.files, chain[0]) == Some(output);
    if |chain| > 1 {
      assert chain[1..][0] == chain[1];
      ReplayIsFold(s, chain[1..], output, Some(s.files[chain[0]].signature.content));
    }
  }

  /** In a successful replay every patch names as its target the container of the
      signature before it, and produces the container of its own signature. */
  lemma {:induction false} ReplayMatchesContainers(s: State, chain: seq<BuildId>, tree: Tree,
                                                   expected: Option<Container>, i: nat)
    requires i < |chain| && ReplayLinks(s, chain, tree, expected).Some?
    ensures PatchStored(s, chain[i]) && s.files[chain[i]].signature.Ready?
    ensures s.files[chain[i]].patch.content.source == s.files[chain[i]].signature.content
    ensures i == 0 && expected.None? ==> s.files[chain[0]].patch.content.target == map[]
    ensures i == 0 && expected.Some? ==> s.files[chain[0]].patch.content.target == expected.value
    ensures i > 0 ==> chain[i - 1] in s.files && s.files[chain[i - 1]].signature.Ready?
    ensures i > 0 ==> s.files[chain[i]].patch.content.target == s.files[chain[i - 1]].signature.content
    decreases i
  {
    var files := s.files[chain[0]];
    var output := ApplyStep(files.patch.content, files.signature.content, tree, expected).value;
    if i > 0 { ReplayMatchesContainers(s, chain[1..], output, Some(files.signature.content), i - 1); }
  }

  lemma PlanIsLinked(s: State, b: BuildId, plan: Collected)
    requires Lineage(s) && Plan(s, b, plan.chain, plan.base)
    ensures Linked(s, plan.chain)
  {
    forall i | 0 < i < |plan.chain| ensures plan.chain[i - 1] < plan.chain[i] { assert BuildOk(s, plan.chain[i]); }
  }

  lemma StartIsBefore(s: State, b: BuildId, plan: Collected)
    requires Tables(s) && Plan(s, b, plan.chain, plan.base) && Start(s, plan.base).Some?
    ensures Before(s.builds, s.files, plan.chain[0]) == Some(Start(s, plan.base).value.0)
  {
    assert BuildOk(s, plan.chain[0]);
    if plan.base.Some? {
      assert RowOk(s, plan.base.value) && ObjectOk(s, s.arch[plan.base.value].path.value);
    }
  }

  /** Base independence: whatever warm ancestor the plan starts from, if any, the
      replay gives the fold from the empty tree. */
  lemma ReplayedIsFold(s: State, b: BuildId, plan: Collected)
    requires Tables(s) && Plan(s, b, plan.chain, plan.base) && Replayed(s, plan).Some?
    ensures Replayed(s, plan) == Fold(s.builds, s.files, b)
  {
    PlanIsLinked(s, b, plan);
    StartIsBefore(s, b, plan);
    var start := Start(s, plan.base).value;
    ReplayIsFold(s, plan.chain, start.0, start.1);
  }

  lemma {:induction false} StoredLinksReplay(s: State, b: BuildId, chain: seq<BuildId>, tree: Tree,
                                             expected: Option<Container>)
    requires Lineage(s) && Walked(s, b, chain) && Stored(s, chain) && ReadyFor(s, chain[0], tree, expected)
    ensures ReplayLinks(s, chain, tree, expected).Some?
    decreases |chain|
  {
    var c := chain[0];
    assert LinkChecked(s.builds, s.files, c) && PatchStored(s, c);
    var output := Fold(s.builds, s.files, c).value;
    assert ApplyStep(s.files[c].patch.content, s.files[c].signature.content, tree, expected) == Some(output);
    if |chain| > 1 {
      var rest := chain[1..];
      assert BuildOk(s, rest[0]) && s.builds[rest[0]].parent == Some(c);
      forall i | 0 <= i < |rest| ensures LinkChecked(s.builds, s.files, rest[i]) && PatchStored(s, rest[i]) {
        assert rest[i] == chain[i + 1];
      }
      StoredLinksReplay(s, b, rest, output, Some(s.files[c].signature.content));
    }
  }

  /** In a reachable state the replay of a completed build succeeds exactly when
      there is a plan and the patch object of each of its links is in the store;
      the result is then the build's fold. */
  lemma ReplaySucceedsIffStored(states: seq<State>, events: seq<Event>, n: nat, b: BuildId, plan: Collected)
    requires IsRun(states, events) && n < |states|
    requires b in states[n].log.completed && Plan(states[n], b, plan.chain, plan.base)
    ensures var s := states[n];
            Replayed(s, plan) == if forall i | 0 <= i < |plan.chain| :: PatchStored(s, plan.chain[i])
                                 then Fold(s.builds, s.files, b) else None
    ensures Fold(states[n].builds, states[n].files, b).Some?
  {
    var s := states[n];
    RunKeeps(states, events, n);
    assert LifeOk(s, b);
    if Replayed(s, plan).Some? {
      ReplayedIsFold(s, b, plan);
      var start := Start(s, plan.base).value;
      forall i | 0 <= i < |plan.chain| ensures PatchStored(s, plan.chain[i]) {
        ReplayMatchesContainers(s, plan.chain, start.0, start.1, i);
      }
    } else if forall i | 0 <= i < |plan.chain| :: PatchStored(s, plan.chain[i]) {
      StoredPlanReplays(s, b, plan);
    }
  }

  lemma {:induction false} WalkIsCompleted(s: State, b: BuildId, chain: seq<BuildId>, i: nat)
    requires Lineage(s) && Life(s) && Walked(s, b, chain) && b in s.log.completed && i < |chain|
    ensures chain[i] in s.log.completed && LinkChecked(s.builds, s.files, chain[i])
    decreases |chain| - i
  {
    assert LifeOk(s, chain[i]);
    if i + 1 < |chain| {
      WalkIsCompleted(s, b, chain, i + 1);
      assert BuildOk(s, chain[i + 1]) && s.builds[chain[i + 1]].parent == Some(chain[i]);
    }
  }

  lemma StoredPlanReplays(s: State, b: BuildId, plan: Collected)
    requires Tables(s) && b in s.log.completed && Plan(s, b, plan.chain, plan.base)
    requires forall i | 0 <= i < |plan.chain| :: PatchStored(s, plan.chain[i])
    ensures Replayed(s, plan).Some?
  {
    forall i | 0 <= i < |plan.chain| ensures LinkChecked(s.builds, s.files, plan.chain[i]) {
      WalkIsCompleted(s, b, plan.chain, i);
    }
    assert BuildOk(s, plan.chain[0]) && LinkChecked(s.builds, s.files, plan.chain[0]);
    if plan.base.Some? {
      assert RowOk(s, plan.base.value) && ObjectOk(s, s.arch[plan.base.value].path.value);
    }
    StartIsBefore(s, b, plan);
    var start := Start(s, plan.base).value;
    StoredLinksReplay(s, b, plan.chain, start.0, start.1);
  }
}
