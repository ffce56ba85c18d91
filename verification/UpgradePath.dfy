/** resolveUpgradePath: the walk from a target build to an installed ancestor, its
    reversal in place, and what applying the patches along it gives. */
module UpgradePath {
  import opened Records
  import opened Trees
  import opened Server
  import opened ServerInvariant
  import opened ServerRuns

  /** Parents are older: the lineage of every reachable state. */
  ghost predicate Forest(builds: map<BuildId, Build>) {
    forall b | b in builds && builds[b].parent.Some? :: builds[b].parent.value < b
  }

  predicate PatchUploaded(files: map<BuildId, Files>, b: BuildId) {
    b in files && files[b].patch.Ready?
  }

  /** Parent-contiguous, oldest first, within one upload and channel. */
  ghost predicate Chain(builds: map<BuildId, Build>, path: seq<BuildId>) {
    && |path| >= 1
    && (forall i | 0 <= i < |path| :: path[i] in builds)
    && (forall i | 0 <= i < |path| :: builds[path[i]].channel == builds[path[|path| - 1]].channel)
    && (forall i | 0 < i < |path| :: builds[path[i]].parent == Some(path[i - 1]))
  }

  ghost predicate IsPath(builds: map<BuildId, Build>, files: map<BuildId, Files>, installed: BuildId, target: BuildId,
                         path: seq<BuildId>)
  {
    && Chain(builds, path)
    && path[0] == installed && path[|path| - 1] == target
    && (forall i | 0 < i < |path| :: path[i] in files && files[path[i]].patch.Ready?)
  }

  // ---------- the walk ----------

  method ReverseInPlace(a: array<BuildId>)
    modifies a
    ensures forall k | 0 <= k < a.Length :: a[k] == old(a[a.Length - 1 - k])
  {
    var i, j := 0, a.Length - 1;
    while i < j
      invariant 0 <= i <= a.Length && i + j == a.Length - 1
      invariant forall k | 0 <= k < i :: a[k] == old(a[a.Length - 1 - k]) && a[a.Length - 1 - k] == old(a[k])
      invariant forall k | i <= k <= j :: a[k] == old(a[k])
    {
      a[i], a[j] := a[j], a[i];
      i, j := i + 1, j - 1;
    }
  }

  /** path goes up from target, newest first. */
  ghost predicate Climb(builds: map<BuildId, Build>, target: BuildId, path: seq<BuildId>) {
    && |path| >= 1 && path[0] == target
    && (forall i | 0 <= i < |path| :: path[i] in builds)
    && (forall i | 0 <= i < |path| :: builds[path[i]].channel == builds[target].channel)
    && (forall i | 0 <= i < |path| - 1 :: builds[path[i]].parent == Some(path[i + 1]))
  }

  /** Any way from installed to target passes through the builds climbed so far. */
  lemma {:induction false} ChainMeetsClimb(builds: map<BuildId, Build>, target: BuildId, climb: seq<BuildId>,
                                           path: seq<BuildId>, k: nat)
    requires Climb(builds, target, climb) && Chain(builds, path) && path[|path| - 1] == target
    requires k < |climb| && k < |path|
    ensures climb[k] == path[|path| - 1 - k]
  {
    if k > 0 { ChainMeetsClimb(builds, target, climb, path, k - 1); }
  }

  /** The walk stops for good at a root, a missing parent or another channel. */
  ghost predicate Blocked(builds: map<BuildId, Build>, target: BuildId, current: BuildId)
    requires target in builds && current in builds
  {
    match builds[current].parent
    case None => true
    case Some(parent) => parent !in builds || builds[parent].channel != builds[target].channel
  }

  lemma BlockedMeansNoChain(builds: map<BuildId, Build>, installed: BuildId, target: BuildId,
                            climb: seq<BuildId>, path: seq<BuildId>)
    requires Climb(builds, target, climb) && installed !in climb && Blocked(builds, target, climb[|climb| - 1])
    ensures !(Chain(builds, path) && path[0] == installed && path[|path| - 1] == target)
  {
    if Chain(builds, path) && path[0] == installed && path[|path| - 1] == target {
      ShorterChainEndsInClimb(builds, target, climb, path);
      var i := |path| - |climb|;
      assert i > 0;
      assert builds[path[i]].parent == Some(path[i - 1]);
      ChainMeetsClimb(builds, target, climb, path, |climb| - 1);
    }
  }

  lemma ShorterChainEndsInClimb(builds: map<BuildId, Build>, target: BuildId, climb: seq<BuildId>, path: seq<BuildId>)
    requires Climb(builds, target, climb) && Chain(builds, path) && path[|path| - 1] == target
    ensures |path| <= |climb| ==> path[0] in climb
  {
    if |path| <= |climb| { ChainMeetsClimb(builds, target, climb, path, |path| - 1); }
  }

  /** Two chains with the same ends are the same: ids only fall on the way up. */
  lemma ChainIsUnique(builds: map<BuildId, Build>, target: BuildId, climb: seq<BuildId>, path: seq<BuildId>)
    requires Forest(builds) && Climb(builds, target, climb)
    requires Chain(builds, path) && path[|path| - 1] == target && path[0] == climb[|climb| - 1]
    ensures |path| == |climb| && forall k | 0 <= k < |path| :: path[k] == climb[|climb| - 1 - k]
  {
    if |path| < |climb| {
      ChainMeetsClimb(builds, target, climb, path, |path| - 1);
      ClimbFalls(builds, target, climb, |path| - 1, |climb| - 1);
    }
    if |climb| < |path| {
      ChainMeetsClimb(builds, target, climb, path, |climb| - 1);
      ChainRises(builds, path, 0, |path| - |climb|);
    }
    forall k | 0 <= k < |path| ensures path[k] == climb[|climb| - 1 - k] {
      ChainMeetsClimb(builds, target, climb, path, |climb| - 1 - k);
    }
  }

  lemma {:induction false} ClimbFalls(builds: map<BuildId, Build>, target: BuildId, climb: seq<BuildId>, i: nat, j: nat)
    requires Forest(builds) && Climb(builds, target, climb) && i < j < |climb|
    ensures climb[j] < climb[i]
    decreases j
  {
    assert builds[climb[j - 1]].parent == Some(climb[j]);
    if i < j - 1 { ClimbFalls(builds, target, climb, i, j - 1); }
  }

  lemma {:induction false} ChainRises(builds: map<BuildId, Build>, path: seq<BuildId>, i: nat, j: nat)
    requires Forest(builds) && Chain(builds, path) && i < j < |path|
    ensures path[i] < path[j]
    decreases j
  {
    if i < j - 1 { ChainRises(builds, path, i, j - 1); }
  }

  /** The path between two builds is unique. */
  lemma PathIsUnique(builds: map<BuildId, Build>, files: map<BuildId, Files>, installed: BuildId, target: BuildId,
                     path: seq<BuildId>, other: seq<BuildId>)
    requires Forest(builds) && IsPath(builds, files, installed, target, path)
    requires IsPath(builds, files, installed, target, other)
    ensures path == other
  {
    var climb := seq(|path|, i requires 0 <= i < |path| => path[|path| - 1 - i]);
    ChainIsUnique(builds, target, climb, other);
  }

  method ResolveUpgradePath(builds: map<BuildId, Build>, files: map<BuildId, Files>, installed: BuildId,
                            target: BuildId)
    returns (r: Option<seq<BuildId>>)
    requires Forest(builds)
    ensures r.Some? ==> IsPath(builds, files, installed, target, r.value)
    ensures r.None? ==> !exists path :: IsPath(builds, files, installed, target, path)
  {
    if target !in builds { return None; }
    var climb, current := [target], target;
    while current != installed
      invariant Climb(builds, target, climb) && current == climb[|climb| - 1]
      invariant forall i | 0 <= i < |climb| - 1 :: climb[i] != installed
      decreases current
    {
      if builds[current].parent.None? || builds[current].parent.value !in builds
         || builds[builds[current].parent.value].channel != builds[target].channel {
        forall path ensures !IsPath(builds, files, installed, target, path) {
          BlockedMeansNoChain(builds, installed, target, climb, path);
        }
        return None;
      }
      current := builds[current].parent.value;
      climb := climb + [current];
    }
    var path := new BuildId[|climb|](i requires 0 <= i < |climb| => climb[i]);
    ReverseInPlace(path);
    assert IsChainOf(builds, installed, target, climb, path[..]);
    var i := 1;
    while i < path.Length
      invariant 1 <= i <= path.Length
      invariant forall k | 0 < k < i :: PatchUploaded(files, path[k])
      decreases path.Length - i
    {
      if !PatchUploaded(files, path[i]) {
        UnpatchedMeansNoPath(builds, files, installed, target, climb, path[..], i);
        return None;
      }
      i := i + 1;
    }
    return Some(path[..]);
  }

  /** The reversed climb. */
  ghost predicate IsChainOf(builds: map<BuildId, Build>, installed: BuildId, target: BuildId, climb: seq<BuildId>,
                            path: seq<BuildId>)
  {
    && Climb(builds, target, climb) && climb[|climb| - 1] == installed
    && |path| == |climb| && (forall k | 0 <= k < |path| :: path[k] == climb[|climb| - 1 - k])
    && Chain(builds, path) && path[0] == installed && path[|path| - 1] == target
  }

  lemma UnpatchedMeansNoPath(builds: map<BuildId, Build>, files: map<BuildId, Files>, installed: BuildId,
                             target: BuildId,
                             climb: seq<BuildId>, path: seq<BuildId>, i: nat)
    requires Forest(builds) && IsChainOf(builds, installed, target, climb, path)
    requires 0 < i < |path| && !PatchUploaded(files, path[i])
    ensures !exists other :: IsPath(builds, files, installed, target, other)
  {
    forall other ensures !IsPath(builds, files, installed, target, other) {
      if Chain(builds, other) && other[0] == installed && other[|other| - 1] == target {
        ChainIsUnique(builds, target, climb, other);
        assert other[i] == path[i];
      }
    }
  }

  // ---------- composition ----------

  /** The way from a to b followed by the way from b to c is the way from a to c. */
  lemma PathsCompose(builds: map<BuildId, Build>, files: map<BuildId, Files>, a: BuildId, b: BuildId, c: BuildId,
                     first: seq<BuildId>, second: seq<BuildId>)
    requires IsPath(builds, files, a, b, first) && IsPath(builds, files, b, c, second)
    ensures IsPath(builds, files, a, c, first + second[1..])
  {
    var path, n := first + second[1..], |first| - 1;
    forall i | 0 <= i < |path|
      ensures path[i] in builds && builds[path[i]].channel == builds[path[|path| - 1]].channel
      ensures i > 0 ==> builds[path[i]].parent == Some(path[i - 1]) && PatchUploaded(files, path[i])
    {
      if i > n { assert path[i] == second[i - n] && path[i - 1] == second[i - n - 1]; }
      assert builds[second[0]].channel == builds[second[|second| - 1]].channel;
    }
  }

  /** Cutting a way at a build on it gives the ways to and from that build. */
  lemma PathsSplit(builds: map<BuildId, Build>, files: map<BuildId, Files>, a: BuildId, c: BuildId,
                   path: seq<BuildId>, k: nat)
    requires IsPath(builds, files, a, c, path) && k < |path|
    ensures IsPath(builds, files, a, path[k], path[..k + 1]) && IsPath(builds, files, path[k], c, path[k..])
  {
  }

  // ---------- meaning ----------

  /** Applying the patches of the given builds in order. */
  function Patched(files: map<BuildId, Files>, tree: Tree, path: seq<BuildId>): Option<Tree>
    decreases |path|
  {
    if path == [] then Some(tree)
    else if !PatchUploaded(files, path[0]) then None
    else match Apply(files[path[0]].patch.content, tree)
         case None => None
         case Some(next) => Patched(files, next, path[1..])
  }

  /** An installed tree upgraded along the path is the target's tree. */
  lemma {:induction false} UpgradesGiveTarget(builds: map<BuildId, Build>, files: map<BuildId, Files>,
                                              installed: BuildId, target: BuildId, path: seq<BuildId>)
    requires Forest(builds) && IsPath(builds, files, installed, target, path)
    requires Fold(builds, files, target).Some?
    ensures Fold(builds, files, installed).Some?
    ensures Patched(files, Fold(builds, files, installed).value, path[1..]) == Fold(builds, files, target)
    decreases |path|
  {
    if |path| > 1 {
      SecondIsFolded(builds, files, target, path);
      assert path[1..][0] == path[1];
      UpgradesGiveTarget(builds, files, path[1], target, path[1..]);
      assert path[1..][1..] == path[2..];
    }
  }

  /** Every build on the way to a folded target has a fold. */
  lemma {:induction false} SecondIsFolded(builds: map<BuildId, Build>, files: map<BuildId, Files>, target: BuildId,
                                          path: seq<BuildId>)
    requires Forest(builds) && Chain(builds, path) && path[|path| - 1] == target && Fold(builds, files, target).Some?
    ensures forall i | 0 <= i < |path| :: Fold(builds, files, path[i]).Some?
    decreases |path|
  {
    if |path| > 1 {
      var n := |path| - 1;
      assert builds[path[n]].parent == Some(path[n - 1]);
      SecondIsFolded(builds, files, path[n - 1], path[..n]);
    }
  }

  // ---------- reachable states ----------

  /** installed is b or one of its ancestors. */
  ghost predicate Descends(builds: map<BuildId, Build>, installed: BuildId, b: BuildId)
    decreases b
  {
    b in builds && (b == installed ||
      (builds[b].parent.Some? && builds[b].parent.value < b && Descends(builds, installed, builds[b].parent.value)))
  }

  lemma {:induction false} PathFor(s: State, installed: BuildId, b: BuildId) returns (path: seq<BuildId>)
    requires Lineage(s) && Life(s) && Descends(s.builds, installed, b)
    requires b != installed ==> PatchUploaded(s.files, b)
    ensures IsPath(s.builds, s.files, installed, b, path)
    decreases b
  {
    path := [b];
    if b != installed {
      var parent := s.builds[b].parent.value;
      assert BuildOk(s, b) && LifeOk(s, parent);
      var before := PathFor(s, installed, parent);
      path := before + [b];
    }
  }

  lemma {:induction false} ChainDescends(builds: map<BuildId, Build>, path: seq<BuildId>)
    requires Forest(builds) && Chain(builds, path)
    ensures Descends(builds, path[0], path[|path| - 1])
    decreases |path|
  {
    if |path| > 1 { ChainDescends(builds, path[..|path| - 1]); }
  }

  /** In every reachable state an upgrade path exists exactly when the installed
      build is the target or an ancestor of it and the target's own patch is
      uploaded: channels and older patches take care of themselves. */
  lemma UpgradeExistsIffAncestor(states: seq<State>, events: seq<Event>, n: nat, installed: BuildId, target: BuildId)
    requires IsRun(states, events) && n < |states|
    ensures Forest(states[n].builds)
    ensures var s := states[n];
            (exists path :: IsPath(s.builds, s.files, installed, target, path)) <==>
              && Descends(s.builds, installed, target)
              && (installed != target ==> target in s.files && s.files[target].patch.Ready?)
  {
    var s := states[n];
    RunKeeps(states, events, n);
    assert Forest(s.builds) by { ForestOf(s); }
    if Descends(s.builds, installed, target) && (installed != target ==> PatchUploaded(s.files, target)) {
      var path := PathFor(s, installed, target);
    }
    if path :| IsPath(s.builds, s.files, installed, target, path) {
      ChainDescends(s.builds, path);
    }
  }

  lemma ForestOf(s: State)
    requires Lineage(s)
    ensures Forest(s.builds)
  {
    forall b | b in s.builds && s.builds[b].parent.Some? ensures s.builds[b].parent.value < b { assert BuildOk(s, b); }
  }
}
