/** ensureArchive, rebuildArchive and checkAndUpdateBuildState as they are written:
    loops and assignments over the rows and objects of the server. Each database or storage call is
    also a step of the server machine, so all its results apply in between. */
module ArchiveHandlers {
  import opened Records
  import opened Trees
  import opened Server
  import opened ServerInvariant
  import opened ServerRuns
  import opened ServerEffects
  import opened ServerSafety
  import opened RebuildPlan
  import opened RebuildChain
  import opened ServerRebuild

  datatype Stride = Stuck | Stop(base: Option<BuildId>) | Onward(parent: BuildId)

  /** What a round of the walk means when no call fails. */
  ghost predicate StrideOk(s: State, b: BuildId, chain: seq<BuildId>, r: Stride) {
    match r
    case Stuck => forall chain, base :: !Plan(s, b, chain, base)
    case Stop(base) => WholeWalk(s, b, Collected(chain, base))
    case Onward(parent) => Walked(s, b, [parent] + chain)
  }

  lemma StrideMeans(s: State, b: BuildId, chain: seq<BuildId>, r: Stride)
    requires Walked(s, b, chain) && |chain| <= MAX_CHAIN_LENGTH + 1
    requires var parent := s.builds[chain[0]].parent;
             match r
             case Stuck => parent.Some? && (|chain| > MAX_CHAIN_LENGTH || parent.value !in s.builds)
             case Stop(base) =>
               base == parent &&
               (base.Some? ==> |chain| <= MAX_CHAIN_LENGTH && base.value in s.builds && Warm(s, base.value))
             case Onward(p) => parent == Some(p) && p in s.builds && !Warm(s, p)
    ensures StrideOk(s, b, chain, r)
  {
    match r
    case Stuck => StuckWalkHasNoPlan(s, b, chain);
    case Stop(base) =>
    case Onward(parent) => WalkGrows(s, b, chain, parent);
  }

  lemma OthersStay(s: State, p: Pid, b: BuildId, at: Option<Pc>)
    ensures Move(s, p, b, at).procs - {p} == s.procs - {p}
  {
  }

  /** While one process moves on, another stays idle or where it was. */
  lemma BystanderStays(s: State, s': State, p: Pid, q: Pid)
    requires s'.procs - {p} == s.procs - {p} && s'.pending == s.pending && s'.locks == s.locks && q != p
    ensures Idle(s, q) ==> Idle(s', q)
    ensures q in s.procs ==> q in s'.procs && s'.procs[q] == s.procs[q]
  {
    if q in s.procs { assert q in s.procs - {p}; }
    if q in s'.procs { assert q in s'.procs - {p}; }
  }

  class Handlers {
    /** Whether the n-th call of a request succeeds. */
    const answers: nat -> bool
    var clock: nat
    var builds: map<BuildId, Build>
    var status: map<BuildId, BuildState>
    var files: map<BuildId, Files>
    var lost: set<BuildId>
    var arch: map<BuildId, ArchiveRow>
    var objects: map<Key, Archive>
    var uuids: nat
    var locks: map<BuildId, Pid>
    var heads: map<Channel, Option<BuildId>>
    ghost var machine: State

    /** A request finds the server in whatever state it is. */
    constructor (s: State, answers: nat -> bool)
      requires Reachable(s)
      ensures Valid() && machine == s && this.answers == answers
    {
      this.answers, clock := answers, 0;
      builds, status, files, lost, arch := s.builds, s.status, s.files, s.lost, s.arch;
      objects, uuids, locks, heads := s.objects, s.uuids, s.locks, s.heads;
      machine := s;
    }

    /** The machine holds the same rows, objects and locks. */
    ghost predicate Mirrors()
      reads this
    {
      && builds == machine.builds && status == machine.status && files == machine.files && lost == machine.lost
      && arch == machine.arch && objects == machine.objects && uuids == machine.uuids && locks == machine.locks
      && heads == machine.heads
    }

    /** And its state is a reachable one. */
    ghost predicate Valid()
      reads this
    {
      Reachable(machine) && Mirrors()
    }

    /** Everybody but p, as the machine knows them. */
    ghost function Others(p: Pid): (map<Pid, Proc>, map<Pid, PendingBuild>)
      reads this
    {
      (machine.procs - {p}, machine.pending)
    }

    method Call() returns (ok: bool)
      modifies this`clock
      ensures ok == answers(old(clock)) && clock == old(clock) + 1
    {
      ok, clock := answers(clock), clock + 1;
    }

    ghost method AdvanceEnsure(p: Pid, b: BuildId, pc: EnsurePc, ok: bool)
      requires Reachable(machine) && IsAt(machine, p, b, Ensuring(pc))
      modifies this`machine
      ensures Reachable(machine) && Others(p) == old(Others(p))
      ensures machine == Move(WriteEnsure(old(machine), p, b, pc, ok), p, b, Some(AfterEnsure(old(machine), b, pc, ok)))
    {
      EnsureStepLeads(AnyEvent(), Init(), machine, p, b, pc, ok);
      EnsureEffect(machine, p, b, pc, ok);
      OthersStay(WriteEnsure(machine, p, b, pc, ok), p, b, Some(AfterEnsure(machine, b, pc, ok)));
      machine := Move(WriteEnsure(machine, p, b, pc, ok), p, b, Some(AfterEnsure(machine, b, pc, ok)));
    }

    /** A call of a replay that only reads. */
    ghost method AdvanceRead(p: Pid, b: BuildId, job: Job, pc: ReplayPc, ok: bool)
      requires Mirrors() && IsAt(machine, p, b, Replaying(job, pc)) && !pc.Put? && !pc.Save?
      modifies this`machine
      ensures Mirrors() && Others(p) == old(Others(p)) && (old(Reachable(machine)) ==> Reachable(machine))
      ensures IsAt(machine, p, b, match ReadStep(old(machine), pc,
                                                 ok) case Some(next) => Replaying(job, next) case None => Abort(job))
    {
      if Reachable(machine) { ReplayStepLeads(AnyEvent(), Init(), machine, p, b, job, pc, ok, Zip); }
      OthersStay(machine, p, b, Some(AfterReplay(machine, b, job, pc, ok, Zip)));
      machine := Move(WriteReplay(machine, b, job, pc, ok, Zip), p, b, Some(AfterReplay(machine, b, job, pc, ok, Zip)));
    }

    // ---------- finding the chain ----------

    ghost predicate AllAnswered()
    {
      forall n :: answers(n)
    }

    /** Looks at one parent: is it warm? */
    method ParentIsWarm(p: Pid, b: BuildId, job: Job, chain: seq<BuildId>, parent: BuildId) returns (warm: bool)
      requires Mirrors() && IsAt(machine, p, b, Replaying(job, WalkRow(chain, parent)))
      modifies this`machine, this`clock
      ensures Mirrors() && Others(p) == old(Others(p)) && (old(Reachable(machine)) ==> Reachable(machine))
      ensures IsAt(machine, p, b, Replaying(job, if warm then LinkRows(chain, Some(parent), 0,
                                                                       false) else Walk([parent] + chain, parent)))
      ensures warm ==> Warm(machine, parent)
      ensures AllAnswered() ==> warm == Warm(machine, parent)
    {
      var ok := Call();
      AdvanceRead(p, b, job, WalkRow(chain, parent), ok);
      if !ok || parent !in arch || arch[parent].state != Uploaded || arch[parent].path.None? { return false; }
      var key := arch[parent].path.value;
      ok := Call();
      AdvanceRead(p, b, job, WalkHead(chain, parent, key), ok);
      return ok && key in objects;
    }

    /** One round of the walk of collectRebuildChain. */
    method Stride(p: Pid, b: BuildId, job: Job, chain: seq<BuildId>, ghost s: State) returns (r: Stride)
      requires Mirrors() && SameReadings(s) && 1 <= |chain| <= MAX_CHAIN_LENGTH + 1 && chain[0] in builds
      requires IsAt(machine, p, b, Replaying(job, Walk(chain, chain[0])))
      modifies this`machine, this`clock
      ensures Mirrors() && SameReadings(s) && Others(p) == old(Others(p))
      ensures old(Reachable(machine)) ==> Reachable(machine)
      ensures IsAt(machine, p, b, match r
                       case Stuck => Abort(job)
                       case Stop(base) => Replaying(job, LinkRows(chain, base, 0, false))
                       case Onward(parent) => Replaying(job, Walk([parent] + chain, parent)))
      ensures r.Onward? ==> |chain| <= MAX_CHAIN_LENGTH
      ensures r.Onward? ==> r.parent in builds && builds[chain[0]].parent == Some(r.parent)
      ensures r.Stop? ==> r.base == builds[chain[0]].parent
      ensures r.Stop? && r.base.Some? ==> r.base.value in builds && Warm(s, r.base.value)
      ensures AllAnswered() && Walked(s, b, chain) ==> StrideOk(s, b, chain, r)
    {
      if builds[chain[0]].parent.None? {
        AdvanceRead(p, b, job, Walk(chain, chain[0]), true);
        return Stop(None);
      }
      var parent := builds[chain[0]].parent.value;
      var ok := Call();
      AdvanceRead(p, b, job, Walk(chain, chain[0]), ok);
      if |chain| > MAX_CHAIN_LENGTH || !ok || parent !in builds {
        if AllAnswered() && Walked(s, b, chain) { StrideMeans(s, b, chain, Stuck); }
        return Stuck;
      }
      var warm := ParentIsWarm(p, b, job, chain, parent);
      r := if warm then Stop(Some(parent)) else Onward(parent);
      if AllAnswered() && Walked(s, b, chain) { StrideMeans(s, b, chain, r); }
    }

    /** The walk of collectRebuildChain: up to the nearest warm ancestor or to the
        root, or None when it is too long or a parent is missing. */
    method WalkParents(p: Pid, b: BuildId, job: Job, ghost s: State) returns (r: Option<Collected>)
      requires Mirrors() && IsAt(machine, p, b, Replaying(job, Walk([b], b))) && b in builds && SameReadings(s)
      modifies this`machine, this`clock
      ensures Mirrors() && SameReadings(s) && Others(p) == old(Others(p))
      ensures old(Reachable(machine)) ==> Reachable(machine)
      ensures match r
              case Some(c) => IsAt(machine, p, b, Replaying(job, LinkRows(c.chain, c.base, 0, false))) && Lined(s, b, c)
              case None => IsAt(machine, p, b, Abort(job))
      ensures AllAnswered() ==> match r
                                case Some(c) => WholeWalk(s, b, c)
                                case None => forall chain, base :: !Plan(s, b, chain, base)
    {
      var chain := [b];
      while true
        invariant Mirrors() && SameReadings(s) && Others(p) == old(Others(p))
        invariant old(Reachable(machine)) ==> Reachable(machine)
        invariant 1 <= |chain| <= MAX_CHAIN_LENGTH + 1 && chain[0] in builds
        invariant IsAt(machine, p, b, Replaying(job, Walk(chain, chain[0])))
        invariant chain[|chain| - 1] == b && forall i | 0 <= i < |chain| :: chain[i] in builds
        invariant forall i | 0 < i < |chain| :: builds[chain[i]].parent == Some(chain[i - 1])
        invariant AllAnswered() ==> Walked(s, b, chain)
        decreases MAX_CHAIN_LENGTH + 1 - |chain|
      {
        var stride := Stride(p, b, job, chain, s);
        match stride
        case Stuck => return None;
        case Stop(base) => return Some(Collected(chain, base));
        case Onward(parent) => chain := [parent] + chain;
      }
    }

    /** The rows and objects are those of s. */
    ghost predicate SameReadings(s: State)
      reads this
    {
      builds == s.builds && files == s.files && lost == s.lost && arch == s.arch && objects == s.objects
    }

    /** The check of collectRebuildChain that every link has its two rows. */
    method LinksHaveRows(p: Pid, b: BuildId, job: Job, c: Collected) returns (pass: bool)
      requires Mirrors() && IsAt(machine, p, b, Replaying(job, LinkRows(c.chain, c.base, 0, false))) && |c.chain| >= 1
      modifies this`machine, this`clock
      ensures Mirrors() && Others(p) == old(Others(p)) && (old(Reachable(machine)) ==> Reachable(machine))
      ensures IsAt(machine, p, b, if pass then Replaying(job, StartReplay(c.chain, c.base)) else Abort(job))
      ensures pass ==> forall i | 0 <= i < |c.chain| :: FilesReady(files, c.chain[i])
      ensures AllAnswered() && !pass ==> exists i | 0 <= i < |c.chain| :: !FilesReady(files, c.chain[i])
    {
      var i := 0;
      while true
        invariant i < |c.chain| && Mirrors() && Others(p) == old(Others(p))
        invariant old(Reachable(machine)) ==> Reachable(machine)
        invariant IsAt(machine, p, b, Replaying(job, LinkRows(c.chain, c.base, i, false)))
        invariant forall j | 0 <= j < i :: FilesReady(files, c.chain[j])
        decreases |c.chain| - i
      {
        var found := LinkHasRows(p, b, job, c, i);
        if !found { return false; }
        if i + 1 == |c.chain| { return true; }
        i := i + 1;
      }
    }

    /** The two rows of one link. */
    method LinkHasRows(p: Pid, b: BuildId, job: Job, c: Collected, i: nat) returns (found: bool)
      requires Mirrors() && i < |c.chain| && IsAt(machine, p, b, Replaying(job, LinkRows(c.chain, c.base, i, false)))
      modifies this`machine, this`clock
      ensures Mirrors() && Others(p) == old(Others(p)) && (old(Reachable(machine)) ==> Reachable(machine))
      ensures IsAt(machine, p, b, if !found then Abort(job)
                                  else if i + 1 < |c.chain| then Replaying(job, LinkRows(c.chain, c.base, i + 1, false))
                                  else Replaying(job, StartReplay(c.chain, c.base)))
      ensures found ==> FilesReady(files, c.chain[i])
      ensures AllAnswered() && !found ==> !FilesReady(files, c.chain[i])
    {
      var ok := Call();
      AdvanceRead(p, b, job, LinkRows(c.chain, c.base, i, false), ok);
      if !ok || c.chain[i] !in files || !files[c.chain[i]].patch.Ready? { return false; }
      ok := Call();
      AdvanceRead(p, b, job, LinkRows(c.chain, c.base, i, true), ok);
      return ok && files[c.chain[i]].signature.Ready?;
    }

    // ---------- the replay ----------

    /** materializeArchivedTree and readParentSignature. */
    method ReadBase(p: Pid, b: BuildId, job: Job, chain: seq<BuildId>,
                    base: BuildId) returns (r: Option<(Tree, Container)>)
      requires Valid() && IsAt(machine, p, b, Replaying(job, Base(chain, base, BaseRow)))
      modifies this`machine, this`clock
      ensures Valid() && Others(p) == old(Others(p))
      ensures IsAt(machine, p, b, if r.Some? then Replaying(job, Link(chain, 0, r.value.0, Some(r.value.1),
                                                                      PatchRow)) else Abort(job))
      ensures r.Some? ==> Start(machine, Some(base)) == Some((r.value.0, Some(r.value.1)))
      ensures AllAnswered() && r.None? ==> Start(machine, Some(base)).None?
    {
      var ok := Call();
      AdvanceRead(p, b, job, Base(chain, base, BaseRow), ok);
      if !ok || base !in arch || arch[base].state != Uploaded || arch[base].path.None? { return None; }
      var key := arch[base].path.value;
      ok := Call();
      AdvanceRead(p, b, job, Base(chain, base, BaseGet(key)), ok);
      if !ok || key !in objects || objects[key].format != key.format { return None; }
      var tree := objects[key].tree;
      r := ReadBaseSignature(p, b, job, chain, base, tree);
    }

    method ReadBaseSignature(p: Pid, b: BuildId, job: Job, chain: seq<BuildId>, base: BuildId, tree: Tree)
      returns (r: Option<(Tree, Container)>)
      requires Valid() && IsAt(machine, p, b, Replaying(job, Base(chain, base, BaseSignatureRow(tree))))
      modifies this`machine, this`clock
      ensures Valid() && Others(p) == old(Others(p))
      ensures IsAt(machine, p, b, if r.Some? then Replaying(job, Link(chain, 0, tree, Some(r.value.1),
                                                                      PatchRow)) else Abort(job))
      ensures r.Some? ==> base in files && files[base].signature.Ready?
      ensures r.Some? ==> r.value == (tree, files[base].signature.content)
      ensures AllAnswered() && r.None? ==> base !in files || !files[base].signature.Ready?
    {
      var ok := Call();
      AdvanceRead(p, b, job, Base(chain, base, BaseSignatureRow(tree)), ok);
      if !ok || base !in files || !files[base].signature.Ready? { return None; }
      ok := Call();
      AdvanceRead(p, b, job, Base(chain, base, BaseSignatureGet(tree)), ok);
      return if ok then Some((tree, files[base].signature.content)) else None;
    }

    /** applyPatchStep. */
    method ApplyPatchStep(p: Pid, b: BuildId, job: Job, chain: seq<BuildId>, i: nat, tree: Tree,
                          expected: Option<Container>)
      returns (r: Option<Tree>)
      requires Valid() && i < |chain| && FilesReady(files, chain[i])
      requires IsAt(machine, p, b, Replaying(job, Link(chain, i, tree, expected, PatchRow)))
      modifies this`machine, this`clock
      ensures Valid() && Others(p) == old(Others(p))
      ensures IsAt(machine, p, b, if r.None? then Abort(job)
                       else if i + 1 < |chain| then
                         Replaying(job, Link(chain, i + 1, r.value, Some(files[chain[i]].signature.content), PatchRow))
                       else Replaying(job, Put(r.value)))
      ensures r.Some? ==> (chain[i] !in lost &&
                r == ApplyStep(files[chain[i]].patch.content, files[chain[i]].signature.content, tree, expected))
      ensures AllAnswered() && r.None? ==> (chain[i] in lost ||
                ApplyStep(files[chain[i]].patch.content, files[chain[i]].signature.content, tree, expected).None?)
      ensures r.Some? ==> Fits(files[chain[i]], expected)
      ensures AllAnswered() && r.None? ==> chain[i] in lost || !Fits(files[chain[i]], expected)
                                           || Apply(files[chain[i]].patch.content, tree).None?
    {
      var c := chain[i];
      var ok := Call();
      AdvanceRead(p, b, job, Link(chain, i, tree, expected, PatchRow), ok);
      if !ok { return None; }
      ok := Call();
      AdvanceRead(p, b, job, Link(chain, i, tree, expected, SignatureRow), ok);
      if !ok { return None; }
      r := DownloadAndApply(p, b, job, chain, i, tree, expected);
    }

    method DownloadAndApply(p: Pid, b: BuildId, job: Job, chain: seq<BuildId>, i: nat, tree: Tree,
                            expected: Option<Container>)
      returns (r: Option<Tree>)
      requires Valid() && i < |chain| && FilesReady(files, chain[i])
      requires IsAt(machine, p, b, Replaying(job, Link(chain, i, tree, expected, PatchGet)))
      modifies this`machine, this`clock
      ensures Valid() && Others(p) == old(Others(p))
      ensures IsAt(machine, p, b, if r.None? then Abort(job)
                       else if i + 1 < |chain| then
                         Replaying(job, Link(chain, i + 1, r.value, Some(files[chain[i]].signature.content), PatchRow))
                       else Replaying(job, Put(r.value)))
      ensures r.Some? ==> (chain[i] !in lost &&
                r == ApplyStep(files[chain[i]].patch.content, files[chain[i]].signature.content, tree, expected))
      ensures AllAnswered() && r.None? ==> (chain[i] in lost ||
                ApplyStep(files[chain[i]].patch.content, files[chain[i]].signature.content, tree, expected).None?)
    {
      var c := chain[i];
      var ok := Call();
      AdvanceRead(p, b, job, Link(chain, i, tree, expected, PatchGet), ok);
      if !ok || c in lost { return None; }
      var patch := files[c].patch.content;
      ok := Call();
      AdvanceRead(p, b, job, Link(chain, i, tree, expected, SignatureGet(patch)), ok);
      return if ok then ApplyStep(patch, files[c].signature.content, tree, expected) else None;
    }

    /** The loop of replayArchiveChain. */
    method ReplayLinksOf(p: Pid, b: BuildId, job: Job, chain: seq<BuildId>, base: Tree, start: Option<Container>)
      returns (r: Option<Tree>)
      requires Valid() && |chain| >= 1 && forall i | 0 <= i < |chain| :: FilesReady(files, chain[i])
      requires IsAt(machine, p, b, Replaying(job, Link(chain, 0, base, start, PatchRow)))
      modifies this`machine, this`clock
      ensures Valid() && Others(p) == old(Others(p))
      ensures IsAt(machine, p, b, if r.Some? then Replaying(job, Put(r.value)) else Abort(job))
      ensures r.Some? ==> r == ReplayLinks(old(machine), chain, base, start)
      ensures AllAnswered() ==> r == ReplayLinks(old(machine), chain, base, start)
    {
      ghost var s := machine;
      var tree, expected, i := base, start, 0;
      assert chain[0..] == chain;
      while true
        invariant i < |chain| && Valid() && SameReadings(s) && Others(p) == old(Others(p))
        invariant IsAt(machine, p, b, Replaying(job, Link(chain, i, tree, expected, PatchRow)))
        invariant ReplayLinks(s, chain[i..], tree, expected) == ReplayLinks(s, chain, base, start)
        decreases |chain| - i
      {
        var output := ApplyPatchStep(p, b, job, chain, i, tree, expected);
        assert chain[i..][0] == chain[i] && chain[i..][1..] == chain[i + 1..];
        if output.None? { return None; }
        if i + 1 == |chain| { return output; }
        tree, expected, i := output.value, Some(files[chain[i]].signature.content), i + 1;
      }
    }

    /** collectRebuildChain, whatever the rows are: also over cyclic parents it ends, and
        when no call fails it returns the plan exactly when there is one. */
    method CollectRebuildChain(p: Pid, b: BuildId, job: Job, ghost s: State) returns (r: Option<Collected>)
      requires Mirrors() && IsAt(machine, p, b, Replaying(job, Walk([b], b))) && b in builds && SameReadings(s)
      modifies this`machine, this`clock
      ensures Mirrors() && Others(p) == old(Others(p)) && (old(Reachable(machine)) ==> Reachable(machine))
      ensures IsAt(machine, p, b, if r.Some? then Replaying(job,
                                                            StartReplay(r.value.chain, r.value.base)) else Abort(job))
      ensures r.Some? ==> |r.value.chain| >= 1 && forall i | 0 <= i < |r.value.chain| ::
                FilesReady(files, r.value.chain[i])
      ensures r.Some? ==> Lined(s, b, r.value)
      ensures AllAnswered() ==> match r
                                case Some(c) => Plan(s, b, c.chain, c.base)
                                case None => forall chain, base :: !Plan(s, b, chain, base)
    {
      r := WalkParents(p, b, job, s);
      if r.None? { return; }
      var pass := LinksHaveRows(p, b, job, r.value);
      if !pass {
        if AllAnswered() {
          var i :| 0 <= i < |r.value.chain| && !FilesReady(files, r.value.chain[i]);
          UnreadyWalkHasNoPlan(s, b, r.value.chain, i);
        }
        return None;
      }
    }

    /** The downloads and patches of replayArchiveChain. */
    method ReplayChain(p: Pid, b: BuildId, job: Job, c: Collected) returns (r: Option<Tree>)
      requires Valid() && IsAt(machine, p, b, Replaying(job, StartReplay(c.chain, c.base)))
      requires |c.chain| >= 1 && forall i | 0 <= i < |c.chain| :: FilesReady(files, c.chain[i])
      modifies this`machine, this`clock
      ensures Valid() && Others(p) == old(Others(p))
      ensures IsAt(machine, p, b, if r.Some? then Replaying(job, Put(r.value)) else Abort(job))
      ensures r.Some? ==> r == Replayed(old(machine), c)
      ensures AllAnswered() ==> r == Replayed(old(machine), c)
    {
      if c.base.None? {
        r := ReplayLinksOf(p, b, job, c.chain, EMPTY_TREE, None);
        return;
      }
      ghost var s := machine;
      var base := ReadBase(p, b, job, c.chain, c.base.value);
      assert Start(machine, c.base) == Start(s, c.base);
      if base.None? { return None; }
      ghost var mid := machine;
      r := ReplayLinksOf(p, b, job, c.chain, base.value.0, Some(base.value.1));
      SameReplay(mid, s, c.chain, base.value.0, Some(base.value.1));
    }

    // ---------- the row of the build ----------

    ghost method AdvanceReplay(p: Pid, b: BuildId, job: Job, pc: ReplayPc, ok: bool, pick: Format)
      requires Reachable(machine) && IsAt(machine, p, b, Replaying(job, pc))
      modifies this`machine
      ensures Reachable(machine) && Others(p) == old(Others(p))
      ensures machine == Move(WriteReplay(old(machine), b, job, pc, ok, pick), p, b,
                              Some(AfterReplay(old(machine), b, job, pc, ok, pick)))
    {
      ReplayStepLeads(AnyEvent(), Init(), machine, p, b, job, pc, ok, pick);
      ReplayEffect(machine, b, job, pc, ok, pick);
      OthersStay(WriteReplay(machine, b, job, pc, ok, pick), p, b, Some(AfterReplay(machine, b, job, pc, ok, pick)));
      machine := Move(WriteReplay(machine, b, job, pc, ok, pick), p, b,
                      Some(AfterReplay(machine, b, job, pc, ok, pick)));
    }

    /** compressAndUploadArchive, under a fresh key. */
    method Upload(p: Pid, b: BuildId, job: Job, tree: Tree, pick: Format) returns (r: Option<Key>)
      requires Valid() && IsAt(machine, p, b, Replaying(job, Put(tree)))
      modifies this`machine, this`clock, this`objects, this`uuids
      ensures Valid() && Others(p) == old(Others(p))
      ensures IsAt(machine, p, b, if r.Some? then Replaying(job, Save(r.value)) else Abort(job))
      ensures r.Some? ==> r.value == Key(b, old(uuids), pick) && objects == old(objects)[r.value := Archive(pick, tree)]
      ensures r.None? ==> objects == old(objects) && uuids == old(uuids)
      ensures AllAnswered() ==> r.Some?
    {
      var ok := Call();
      var key := Key(b, uuids, pick);
      if ok { objects, uuids := objects[key := Archive(pick, tree)], uuids + 1; }
      AdvanceReplay(p, b, job, Put(tree), ok, pick);
      return if ok then Some(key) else None;
    }

    /** The row write at the end of replayArchiveChain. */
    method SaveRow(p: Pid, b: BuildId, job: Job, key: Key, pick: Format) returns (ok: bool)
      requires Valid() && IsAt(machine, p, b, Replaying(job, Save(key))) && job.Rebuild? && b in arch
      modifies this`machine, this`clock, this`arch
      ensures Valid() && Others(p) == old(Others(p))
      ensures IsAt(machine, p, b, AfterSave(job, key, ok))
      ensures arch == if ok then old(arch)[b := ArchiveRow(Uploaded, Some(key), false)] else old(arch)
      ensures AllAnswered() ==> ok
    {
      ok := Call();
      if ok { arch := arch[b := ArchiveRow(Uploaded, Some(key), false)]; }
      AdvanceReplay(p, b, job, Save(key), ok, pick);
    }

    /** replayArchiveChain up to the rebuilt tree. */
    method ReplayTree(p: Pid, b: BuildId, job: Job, ghost s: State) returns (r: Option<Tree>)
      requires Valid() && IsAt(machine, p, b, Replaying(job, Walk([b], b))) && b in builds && SameReadings(s)
      modifies this`machine, this`clock
      ensures Valid() && Others(p) == old(Others(p))
      ensures IsAt(machine, p, b, if r.Some? then Replaying(job, Put(r.value)) else Abort(job))
      ensures AllAnswered() ==> (r.Some? <==> Rebuildable(s, b))
    {
      var c := CollectRebuildChain(p, b, job, s);
      if c.None? { return None; }
      ghost var mid := machine;
      r := ReplayChain(p, b, job, c.value);
      if AllAnswered() { OnePlanDecides(s, mid, b, c.value); }
    }

    /** replayArchiveChain; on failure file is the copy of the row as it was left. */
    method ReplayArchiveChain(p: Pid, b: BuildId, job: Job, pick: Format, ghost s: State) returns (r: Option<Key>,
                              file: ArchiveRow)
      requires Valid() && IsAt(machine, p, b, Replaying(job, Walk([b], b))) && b in builds && b in arch
      requires job.Rebuild? && SameReadings(s)
      modifies this`machine, this`clock, this`objects, this`uuids, this`arch
      ensures Valid() && Others(p) == old(Others(p))
      ensures r.Some? || !job.wasEvicted ==> IsAt(machine, p, b, Unlock(r))
      ensures r.None? && job.wasEvicted ==> IsAt(machine, p, b, Ensuring(Revert(file.(state := Evicted))))
      ensures arch == if r.Some? then old(arch)[b := ArchiveRow(Uploaded, r, false)] else old(arch)
      ensures MayStore(old(objects), objects, Key(b, old(uuids), pick))
      ensures file == job.file || file == ArchiveRow(Uploaded, Some(Key(b, old(uuids), pick)), false)
      ensures r.Some? ==> r == Some(Key(b, old(uuids), pick))
      ensures AllAnswered() ==> (r.Some? <==> Rebuildable(s, b)) && (r.None? ==> file == job.file)
    {
      file := job.file;
      var tree := ReplayTree(p, b, job, s);
      if tree.None? { return None, file; }
      var key := Upload(p, b, job, tree.value, pick);
      if key.None? { return None, file; }
      file := ArchiveRow(Uploaded, key, false);
      var ok := SaveRow(p, b, job, key.value, pick);
      r := if ok then key else None;
    }

    predicate Completes(b: BuildId)
      reads this`status
    {
      b in status && status[b] == Completed
    }

    /** The row says uploaded and its object is there. */
    predicate Stocked(b: BuildId)
      reads this`arch, this`objects
    {
      b in arch && arch[b].state == Uploaded && arch[b].path.Some? && arch[b].path.value in objects
    }

    // ---------- rebuildArchive and ensureArchive ----------

    /** Checks the build and writes state rebuilding; the job to do, if any. */
    method StartRebuild(p: Pid, b: BuildId) returns (job: Option<Job>)
      requires Valid() && IsAt(machine, p, b, Ensuring(RebuildBuild))
      modifies this`machine, this`clock, this`arch
      ensures Valid() && Others(p) == old(Others(p))
      ensures IsAt(machine, p, b, if job.Some? then Replaying(job.value, Walk([b], b)) else Unlock(None))
      ensures job.None? ==> arch == old(arch)
      ensures job.Some? ==> && arch == old(arch)[b := RebuildingCopy(RowOf(old(arch), b))]
                            && job == Some(Rebuild(arch[b], b in old(arch) && old(arch)[b].evictedAt))
                            && b in status && status[b] == Completed
      ensures AllAnswered() && b in status && status[b] == Completed ==> job.Some?
    {
      var ok := Call();
      AdvanceEnsure(p, b, RebuildBuild, ok);
      if !ok || b !in status || status[b] != Completed { return None; }
      ok := Call();
      AdvanceEnsure(p, b, RebuildRow, ok);
      if !ok { return None; }
      job := MarkRow(p, b);
    }

    method MarkRow(p: Pid, b: BuildId) returns (job: Option<Job>)
      requires Valid() && IsAt(machine, p, b, Ensuring(MarkRebuilding(RowOf(arch, b))))
      modifies this`machine, this`clock, this`arch
      ensures Valid() && Others(p) == old(Others(p))
      ensures IsAt(machine, p, b, if job.Some? then Replaying(job.value, Walk([b], b)) else Unlock(None))
      ensures job.None? ==> arch == old(arch)
      ensures job.Some? ==> && arch == old(arch)[b := RebuildingCopy(RowOf(old(arch), b))]
                            && job == Some(Rebuild(arch[b], b in old(arch) && old(arch)[b].evictedAt))
      ensures AllAnswered() ==> job.Some?
    {
      var found := RowOf(arch, b);
      var file := RebuildingCopy(found);
      var ok := Call();
      if ok { arch := arch[b := file]; }
      AdvanceEnsure(p, b, MarkRebuilding(found), ok);
      return if ok then Some(Rebuild(file, found.Some? && found.value.evictedAt)) else None;
    }

    /** The row of a failed rebuild goes back to evicted. */
    method RevertRow(p: Pid, b: BuildId, file: ArchiveRow)
      requires Valid() && IsAt(machine, p, b, Ensuring(Revert(file.(state := Evicted)))) && b in arch
      modifies this`machine, this`clock, this`arch
      ensures Valid() && Others(p) == old(Others(p)) && IsAt(machine, p, b, Unlock(None))
      ensures arch == old(arch) || arch == old(arch)[b := file.(state := Evicted)]
      ensures AllAnswered() ==> arch == old(arch)[b := file.(state := Evicted)]
    {
      var ok := Call();
      if ok { arch := arch[b := file.(state := Evicted)]; }
      AdvanceEnsure(p, b, Revert(file.(state := Evicted)), ok);
    }

    /** rebuildArchive, with the lock held: rebuilt, or back to the row it found. */
    method RebuildArchive(p: Pid, b: BuildId, pick: Format) returns (r: Option<Key>)
      requires Valid() && IsAt(machine, p, b, Ensuring(RebuildBuild)) && status.Keys <= builds.Keys
      modifies this`machine, this`clock, this`objects, this`uuids, this`arch
      ensures Valid() && Others(p) == old(Others(p)) && IsAt(machine, p, b, Unlock(r))
      ensures RebuildChange(old(arch), arch, Completes(b), b, r, Key(b, old(uuids), pick))
      ensures MayStore(old(objects), objects, Key(b, old(uuids), pick))
      ensures AllAnswered() ==> (r.Some? <==> CanRebuild(old(machine), b))
      ensures AllAnswered() && r.None? ==> arch == RowsAfterFailure(old(arch), Completes(b), b)
    {
      ghost var s, before := Marked(machine, b), arch;
      var job := StartRebuild(p, b);
      if job.None? { return None; }
      ghost var marked := arch;
      r := FinishRebuild(p, b, job.value, pick, s);
      RebuiltRow(before, marked, arch, b, job.value.wasEvicted, r, Key(b, old(uuids), pick));
    }

    method FinishRebuild(p: Pid, b: BuildId, job: Job, pick: Format, ghost s: State) returns (r: Option<Key>)
      requires Valid() && IsAt(machine, p, b, Replaying(job, Walk([b], b))) && b in builds && b in arch
      requires SameReadings(s)
      requires job.Rebuild? && job.file == arch[b] && arch[b].state != Uploaded
      modifies this`machine, this`clock, this`objects, this`uuids, this`arch
      ensures Valid() && Others(p) == old(Others(p)) && IsAt(machine, p, b, Unlock(r))
      ensures r.Some? ==> arch == old(arch)[b := ArchiveRow(Uploaded, r, false)]
      ensures r.None? ==> b in arch && arch[b].state != Uploaded && arch == old(arch)[b := arch[b]]
      ensures MayStore(old(objects), objects, Key(b, old(uuids), pick))
      ensures r.Some? ==> r == Some(Key(b, old(uuids), pick))
      ensures r.None? && !job.wasEvicted ==> arch == old(arch)
      ensures r.None? && job.wasEvicted ==> arch[b] == job.file || arch[b] == job.file.(state := Evicted)
                                            || arch[b] == ArchiveRow(Evicted, Some(Key(b, old(uuids), pick)), false)
      ensures AllAnswered() ==> (r.Some? <==> Rebuildable(s, b))
      ensures AllAnswered() && r.None? && job.wasEvicted ==> arch[b] == job.file.(state := Evicted)
    {
      var file;
      r, file := ReplayArchiveChain(p, b, job, pick, s);
      if r.None? && job.wasEvicted { RevertRow(p, b, file); }
    }

    // ---------- ensureArchive ----------

    /** warmArchive. */
    method WarmArchive(p: Pid, b: BuildId, locked: bool) returns (r: Option<Key>)
      requires Valid() && IsAt(machine, p, b, Ensuring(WarmRow(locked)))
      modifies this`machine, this`clock
      ensures Valid() && Others(p) == old(Others(p))
      ensures IsAt(machine, p, b, if r.None? then Ensuring(if locked then RebuildBuild else LockWait)
                       else if locked then Unlock(r) else Returned(r))
      ensures r.Some? ==> b in arch && arch[b].state == Uploaded && arch[b].path == r
      ensures AllAnswered() ==> (r.Some? <==> Warm(old(machine), b))
    {
      var ok := Call();
      AdvanceEnsure(p, b, WarmRow(locked), ok);
      if !ok || b !in arch || arch[b].state != Uploaded || arch[b].path.None? { return None; }
      var key := arch[b].path.value;
      ok := Call();
      AdvanceEnsure(p, b, WarmHead(locked, key), ok);
      return if ok && key in objects then Some(key) else None;
    }

    ghost method Begin(p: Pid, b: BuildId)
      requires Valid() && Idle(machine, p)
      modifies this`machine
      ensures Valid() && IsAt(machine, p, b, Ensuring(WarmRow(false))) && p !in machine.pending && NoLock(machine, p)
      ensures Others(p) == old(Others(p)) && machine == old(machine).(procs := machine.procs)
    {
      LeadsNext(AnyEvent(), Init(), machine, Ensure(p, b));
      OthersStay(machine, p, b, Some(Ensuring(WarmRow(false))));
      machine := Spawn(machine, p, b, Ensuring(WarmRow(false)));
    }

    /** The request is answered and its process ends. */
    ghost method End(p: Pid, b: BuildId, r: Option<Key>)
      requires Valid() && IsAt(machine, p, b, Returned(r)) && p !in machine.pending && NoLock(machine, p)
      modifies this`machine
      ensures Valid() && Idle(machine, p) && Others(p) == old(Others(p))
    {
      LeadsNext(AnyEvent(), Init(), machine, Crash(p));
      assert machine.pending - {p} == machine.pending && (machine.procs - {p}) - {p} == machine.procs - {p};
      machine := CrashOf(machine, p);
      assert machine.locks == locks;
    }

    /** AcquireBuildArchiveLock; a lock that stays taken times out. */
    method Acquire(p: Pid, b: BuildId) returns (taken: bool)
      requires Valid() && IsAt(machine, p, b, Ensuring(LockWait)) && p !in machine.pending && NoLock(machine, p)
      modifies this`machine, this`clock, this`locks
      ensures Valid() && Others(p) == old(Others(p))
      ensures taken ==> IsAt(machine, p, b, Ensuring(WarmRow(true))) && b !in old(locks)
      ensures taken ==> locks == old(locks)[b := p] && HoldsOnly(machine, p, b)
      ensures !taken ==> IsAt(machine, p, b, Returned(None)) && locks == old(locks)
      ensures AllAnswered() && b !in old(locks) ==> taken
    {
      var ok := Call();
      taken := ok && b !in locks;
      if taken { TakeLock(p, b); } else { TimeOut(p, b); }
    }

    ghost method TimeOut(p: Pid, b: BuildId)
      requires Valid() && IsAt(machine, p, b, Ensuring(LockWait))
      modifies this`machine
      ensures Valid() && Others(p) == old(Others(p)) && IsAt(machine, p, b, Returned(None))
    {
      AdvanceEnsure(p, b, LockWait, false);
    }

    method TakeLock(p: Pid, b: BuildId)
      requires Valid() && IsAt(machine, p, b, Ensuring(LockWait)) && p !in machine.pending && NoLock(machine, p)
      requires b !in locks
      modifies this`machine, this`locks
      ensures Valid() && Others(p) == old(Others(p))
      ensures IsAt(machine, p, b, Ensuring(WarmRow(true))) && locks == old(locks)[b := p] && HoldsOnly(machine, p, b)
    {
      locks := locks[b := p];
      AdvanceEnsure(p, b, LockWait, true);
    }

    method Release(p: Pid, b: BuildId, r: Option<Key>)
      requires Valid() && IsAt(machine, p, b, Unlock(r)) && HoldsOnly(machine, p, b)
      modifies this`machine, this`locks
      ensures Valid() && Others(p) == old(Others(p)) && locks == old(locks) - {b}
      ensures IsAt(machine, p, b, Returned(r)) && p !in machine.pending && NoLock(machine, p)
    {
      OthersStay(machine, p, b, Some(Returned(r)));
      LeadsNext(AnyEvent(), Init(), machine, Step(p, true, Zip));
      machine := Move(machine.(locks := machine.locks - {b}), p, b, Some(Returned(r)));
      locks := locks - {b};
    }

    /** The part of ensureArchive under the lock. */
    method EnsureLocked(p: Pid, b: BuildId, pick: Format) returns (r: Option<Key>)
      requires Valid() && IsAt(machine, p, b, Ensuring(WarmRow(true))) && status.Keys <= builds.Keys
      modifies this`machine, this`clock, this`objects, this`uuids, this`arch
      ensures Valid() && Others(p) == old(Others(p)) && IsAt(machine, p, b, Unlock(r))
      ensures EnsureChange(old(arch), arch, old(objects), objects, Completes(b), b, r, Key(b, old(uuids), pick))
      ensures AllAnswered() ==> (r.Some? <==> Warm(old(machine), b) || CanRebuild(old(machine), b))
      ensures AllAnswered() && r.None? ==> arch == RowsAfterFailure(old(arch), Completes(b), b)
    {
      ghost var s := machine;
      r := WarmArchive(p, b, true);
      if r.Some? { return; }
      ghost var mid := machine;
      r := RebuildArchive(p, b, pick);
      if AllAnswered() { SameRebuild(s, mid, b); }
    }

    /** ensureArchive from the lock on; s is the server as the request found it. */
    method EnsureCold(p: Pid, b: BuildId, pick: Format, ghost s: State) returns (r: Option<Key>)
      requires Valid() && IsAt(machine, p, b, Ensuring(LockWait)) && p !in machine.pending && NoLock(machine, p)
      requires status.Keys <= builds.Keys && SameData(s)
      modifies this`machine, this`clock, this`objects, this`uuids, this`arch, this`locks
      ensures Valid() && Others(p) == old(Others(p)) && locks == old(locks)
      ensures IsAt(machine, p, b, Returned(r)) && p !in machine.pending && NoLock(machine, p)
      ensures EnsureChange(old(arch), arch, old(objects), objects, Completes(b), b, r, Key(b, old(uuids), pick))
      ensures AllAnswered() && b !in old(locks) ==> (r.Some? <==> Warm(s, b) || CanRebuild(s, b))
      ensures AllAnswered() && b !in old(locks) && r.None? ==> arch == RowsAfterFailure(old(arch), Completes(b), b)
      ensures b in old(locks) ==> arch == old(arch) && objects == old(objects)
    {
      ghost var held := locks;
      var taken := Acquire(p, b);
      if !taken { return None; }
      r := EnsureAndRelease(p, b, pick, s);
      LockIsGivenBack(held, b, p);
    }

    /** The rows, objects and build states are those of s. */
    ghost predicate SameData(s: State)
      reads this
    {
      SameReadings(s) && status == s.status
    }

    method EnsureAndRelease(p: Pid, b: BuildId, pick: Format, ghost s: State) returns (r: Option<Key>)
      requires Valid() && IsAt(machine, p, b, Ensuring(WarmRow(true))) && HoldsOnly(machine, p, b)
      requires status.Keys <= builds.Keys && SameData(s)
      modifies this`machine, this`clock, this`objects, this`uuids, this`arch, this`locks
      ensures Valid() && Others(p) == old(Others(p)) && locks == old(locks) - {b}
      ensures IsAt(machine, p, b, Returned(r)) && p !in machine.pending && NoLock(machine, p)
      ensures EnsureChange(old(arch), arch, old(objects), objects, Completes(b), b, r, Key(b, old(uuids), pick))
      ensures AllAnswered() ==> (r.Some? <==> Warm(s, b) || CanRebuild(s, b))
      ensures AllAnswered() && r.None? ==> arch == RowsAfterFailure(old(arch), Completes(b), b)
    {
      SameRebuild(s, machine, b);
      r := EnsureLocked(p, b, pick);
      Release(p, b, r);
    }

    /** The calls of ensureArchive, with or without the lock. */
    method ServeRequest(p: Pid, b: BuildId, pick: Format) returns (r: Option<Key>)
      requires Valid() && IsAt(machine, p, b, Ensuring(WarmRow(false))) && p !in machine.pending && NoLock(machine, p)
      modifies this`machine, this`clock, this`objects, this`uuids, this`arch, this`locks
      ensures Valid() && Others(p) == old(Others(p)) && locks == old(locks)
      ensures IsAt(machine, p, b, Returned(r)) && p !in machine.pending && NoLock(machine, p)
      ensures EnsureChange(old(arch), arch, old(objects), objects, Completes(b), b, r, Key(b, old(uuids), pick))
      ensures AllAnswered() && old(Stocked(b)) ==>
                r == old(arch)[b].path && arch == old(arch) && objects == old(objects)
      ensures AllAnswered() && b !in old(locks) ==> (r.Some? <==> Warm(old(machine), b) || CanRebuild(old(machine), b))
      ensures AllAnswered() && b !in old(locks) && r.None? ==> arch == RowsAfterFailure(old(arch), Completes(b), b)
      ensures b in old(locks) ==> arch == old(arch) && objects == old(objects)
    {
      ghost var s := machine;
      KnownBuilds(machine);
      r := WarmArchive(p, b, false);
      if r.None? { r := EnsureCold(p, b, pick, s); }
    }

    /** ensureArchive: the key it returns holds exactly the build's tree. When no call
        fails, an archive that is there is returned and nothing changes; and when the
        lock is free, it answers exactly when the archive is warm or can be rebuilt, and
        a failed rebuild leaves an evicted row as it was. */
    method EnsureArchive(p: Pid, b: BuildId, pick: Format) returns (r: Option<Key>)
      requires Valid() && Idle(machine, p)
      modifies this`machine, this`clock, this`objects, this`uuids, this`arch, this`locks
      ensures Valid() && Idle(machine, p) && Others(p) == old(Others(p)) && locks == old(locks)
      ensures EnsureChange(old(arch), arch, old(objects), objects, Completes(b), b, r, Key(b, old(uuids), pick))
      ensures r.Some? ==> Serves(machine, r.value, b)
      ensures AllAnswered() && old(Stocked(b)) ==>
                r == old(arch)[b].path && arch == old(arch) && objects == old(objects)
      ensures AllAnswered() && b !in old(locks) ==> (r.Some? <==> Warm(old(machine), b) || CanRebuild(old(machine), b))
      ensures AllAnswered() && b !in old(locks) && r.None? ==> arch == RowsAfterFailure(old(arch), Completes(b), b)
      ensures b in old(locks) ==> arch == old(arch) && objects == old(objects)
      ensures AllAnswered() && r.None? && WasEvicted(old(arch), b) ==> arch == old(arch)
    {
      ghost var s := machine;
      Begin(p, b);
      if AllAnswered() { SameRebuild(s, machine, b); }
      r := ServeRequest(p, b, pick);
      End(p, b, r);
      if r.Some? { UploadedServes(machine, b); }
    }

    // ---------- checkAndUpdateBuildState ----------

    ghost method AdvanceCheck(p: Pid, b: BuildId, pc: CheckPc, ok: bool)
      requires Reachable(machine) && IsAt(machine, p, b, Checking(pc))
      modifies this`machine
      ensures Reachable(machine) && Others(p) == old(Others(p))
      ensures machine == Move(WriteCheck(old(machine), p, b, pc, ok), p, b, AfterCheck(old(machine), b, pc, ok))
    {
      CheckStepLeads(AnyEvent(), Init(), machine, p, b, pc, ok);
      CheckEffect(machine, p, b, pc, ok);
      OthersStay(WriteCheck(machine, p, b, pc, ok), p, b, AfterCheck(machine, b, pc, ok));
      machine := Move(WriteCheck(machine, p, b, pc, ok), p, b, AfterCheck(machine, b, pc, ok));
    }

    /** A completion that fails ends the check. */
    ghost method GiveUp(p: Pid, b: BuildId)
      requires Valid() && IsAt(machine, p, b, Checking(Complete))
      modifies this`machine
      ensures Valid() && Others(p) == old(Others(p)) && p !in machine.procs
    {
      AdvanceCheck(p, b, Complete, false);
    }

    /** The completion; status is about to be written. */
    ghost method AdvanceComplete(p: Pid, b: BuildId)
      requires Valid() && IsAt(machine, p, b, Checking(Complete)) && Known(b)
      modifies this`machine
      ensures Reachable(machine) && Others(p) == old(Others(p)) && IsAt(machine, p, b, Checking(Crown))
      ensures var s := old(machine);
              machine == s.(status := s.status[b := Completed], procs := machine.procs, log := machine.log)
    {
      AdvanceCheck(p, b, Complete, true);
    }

    ghost predicate Known(b: BuildId)
      reads this
    {
      b in builds && b in status && b in files
    }

    /** The two reads a check starts with: the state and what the files call for. */
    method ReadBuild(p: Pid, b: BuildId, depth: nat) returns (seen: Option<BuildState>)
      requires Valid() && IsAt(machine, p, b, Checking(CheckBuild(depth))) && Known(b)
      modifies this`machine, this`clock
      ensures Valid() && Others(p) == old(Others(p))
      ensures seen.Some? ==> seen.value == status[b] && (seen.value == Started || seen.value == Processing)
      ensures seen.Some? ==> match AfterCheckFiles(machine, b, depth, seen.value)
                             case Some(next) => IsAt(machine, p, b, next)
                             case None => p !in machine.procs
      ensures seen.None? ==> p !in machine.procs
      ensures AllAnswered() ==> (seen.Some? <==> status[b] == Started || status[b] == Processing)
    {
      var ok := Call();
      AdvanceCheck(p, b, CheckBuild(depth), ok);
      if !ok || (status[b] != Started && status[b] != Processing) { return None; }
      seen := Some(status[b]);
      ok := Call();
      AdvanceCheck(p, b, CheckFiles(depth, seen.value), ok);
      if !ok { seen := None; }
    }

    /** UPDATE builds SET state = failed. */
    method FailBuild(p: Pid, b: BuildId, pc: CheckPc)
      requires Valid() && IsAt(machine, p, b, Checking(pc)) && Known(b) && (pc == FailBroken || pc == FailGeneration)
      modifies this`machine, this`clock, this`status
      ensures Valid() && Others(p) == old(Others(p)) && p !in machine.procs
      ensures status == old(status) || status == old(status)[b := Failed]
      ensures AllAnswered() ==> status == old(status)[b := Failed]
    {
      var ok := Call();
      if ok { status := status[b := Failed]; }
      AdvanceCheck(p, b, pc, ok);
    }

    /** ClaimBuildProcessing. */
    method ClaimBuild(p: Pid, b: BuildId, depth: nat) returns (claimed: bool)
      requires Valid() && IsAt(machine, p, b, Checking(Claim(depth))) && Known(b)
      modifies this`machine, this`clock, this`status
      ensures Valid() && Others(p) == old(Others(p))
      ensures status == if claimed then old(status)[b := Processing] else old(status)
      ensures claimed ==> old(status[b]) == Started
      ensures if claimed then IsAt(machine, p, b, StartGeneration(b, builds[b].parent, depth))
              else p !in machine.procs
      ensures AllAnswered() ==> (claimed <==> old(status[b]) == Started)
    {
      var ok := Call();
      claimed := ok && status[b] == Started;
      if claimed { status := status[b := Processing]; }
      AdvanceCheck(p, b, Claim(depth), ok);
    }

    /** UPDATE builds SET state = completed. */
    method MarkCompleted(p: Pid, b: BuildId) returns (ok: bool)
      requires Valid() && IsAt(machine, p, b, Checking(Complete)) && Known(b)
      modifies this`machine, this`clock, this`status
      ensures Valid() && Others(p) == old(Others(p))
      ensures status == if ok then old(status)[b := Completed] else old(status)
      ensures if ok then IsAt(machine, p, b, Checking(Crown)) else p !in machine.procs
      ensures AllAnswered() ==> ok
    {
      ok := Call();
      if !ok { GiveUp(p, b); return; }
      AdvanceComplete(p, b);
      status := status[b := Completed];
    }

    /** advanceCompletedChannelHead. */
    method AdvanceHead(p: Pid, b: BuildId)
      requires Valid() && IsAt(machine, p, b, Checking(Crown)) && Known(b)
      modifies this`machine, this`clock, this`heads
      ensures Valid() && Others(p) == old(Others(p)) && p !in machine.procs
      ensures heads == old(heads) || heads == old(heads)[builds[b].channel := Some(b)]
      ensures AllAnswered() && builds[b].channel in heads ==> heads[builds[b].channel] == Some(b)
    {
      var ok := Call();
      if ok && builds[b].channel in heads { heads := heads[builds[b].channel := Some(b)]; }
      AdvanceCheck(p, b, Crown, ok);
    }

    /** Completion and, with the next call, the advance of the channel head. */
    method CompleteBuild(p: Pid, b: BuildId)
      requires Valid() && IsAt(machine, p, b, Checking(Complete)) && Known(b)
      modifies this`machine, this`clock, this`status, this`heads
      ensures Valid() && Others(p) == old(Others(p)) && p !in machine.procs
      ensures status == old(status) || status == old(status)[b := Completed]
      ensures heads == old(heads) || (heads == old(heads)[builds[b].channel := Some(b)] && status[b] == Completed)
      ensures AllAnswered() ==> status[b] == Completed && IsHeadOfItsChannel(b)
    {
      var ok := MarkCompleted(p, b);
      if ok { AdvanceHead(p, b); }
    }

    predicate IsHeadOfItsChannel(b: BuildId)
      reads this`builds, this`heads
    {
      b in builds && (builds[b].channel in heads ==> heads[builds[b].channel] == Some(b))
    }

    // ---------- generateArchiveDefault ----------

    /** The parent of b, if any, can be locked now. */
    predicate ParentFree(b: BuildId)
      reads this`builds, this`locks
    {
      b in builds && (builds[b].parent.Some? ==> builds[b].parent.value !in locks)
    }

    /** No archive row changed but that of b's parent. */
    predicate OnlyParentRow(before: map<BuildId, ArchiveRow>, b: BuildId)
      requires b in builds
      reads this`builds, this`arch
    {
      && (forall x | x in before && builds[b].parent != Some(x) :: x in arch && arch[x] == before[x])
      && (forall x | x in arch && x !in before :: builds[b].parent == Some(x))
    }

    ghost method Ask(p: Pid, q: Pid, b: BuildId, depth: nat)
      requires Valid() && HasParent(machine, b) && Idle(machine, q) && IsAt(machine, p, b, Checking(AskParent(depth)))
      modifies this`machine
      ensures Valid() && IsAt(machine, p, b, Checking(AwaitParent(depth, q)))
      ensures IsAt(machine, q, builds[b].parent.value, Ensuring(WarmRow(false)))
      ensures q !in machine.pending && NoLock(machine, q) && machine == old(machine).(procs := machine.procs)
    {
      LeadsNext(AnyEvent(), Init(), machine, Nest(p, q));
      machine := NestOf(machine, p, q);
    }

    /** The generation goes on with the answer. */
    ghost method TakeAnswer(p: Pid, q: Pid, b: BuildId, depth: nat, r: Option<Key>)
      requires Valid() && HasParent(machine, b) && IsAt(machine, p, b, Checking(AwaitParent(depth, q))) && p != q
      requires IsAt(machine, q, builds[b].parent.value, Returned(r)) && q !in machine.pending && NoLock(machine, q)
      modifies this`machine
      ensures Valid() && Idle(machine, q)
      ensures IsAt(machine, p, b, if r.Some? then Replaying(Generate(depth), StartReplay([b], builds[b].parent))
                                  else Checking(FailGeneration))
    {
      ghost var s := machine;
      AdvanceCheck(p, b, AwaitParent(depth, q), true);
      BystanderStays(s, machine, p, q);
      ghost var mid := machine;
      End(q, builds[b].parent.value, r);
      BystanderStays(mid, machine, q, p);
    }

    /** materializeBuildTree begins with a nested request, served by process q, that
        makes the parent's archive warm. */
    method EnsureParent(p: Pid, q: Pid, b: BuildId, depth: nat, pick: Format) returns (ok: bool)
      requires Valid() && HasParent(machine, b) && Idle(machine, q) && IsAt(machine, p, b, Checking(AskParent(depth)))
      modifies this`machine, this`clock, this`objects, this`uuids, this`arch, this`locks
      ensures Valid() && Idle(machine, q) && locks == old(locks) && OnlyParentRow(old(arch), b)
      ensures IsAt(machine, p, b, if ok then Replaying(Generate(depth), StartReplay([b], builds[b].parent))
                                  else Checking(FailGeneration))
      ensures ok ==> UploadedRow(machine, builds[b].parent.value)
      ensures AllAnswered() && ParentFree(b) ==> (ok <==> ParentServable(old(machine), b))
    {
      ghost var s := machine;
      Ask(p, q, b, depth);
      ghost var mid := machine;
      var parent := builds[b].parent.value;
      SameRebuild(s, mid, parent);
      var key := ServeRequest(q, parent, pick);
      BystanderStays(mid, machine, q, p);
      TakeAnswer(p, q, b, depth, key);
      return key.Some?;
    }

    /** generateArchiveDefault up to the new tree, which is the fold of every patch
        from the root. */
    method GenerateTree(p: Pid, q: Pid, b: BuildId, depth: nat, pick: Format) returns (r: Option<Tree>)
      requires Valid() && Known(b) && FilesReady(files, b) && Idle(machine, q) && p != q && b !in arch
      requires IsAt(machine, p, b, StartGeneration(b, builds[b].parent, depth))
      modifies this`machine, this`clock, this`objects, this`uuids, this`arch, this`locks
      ensures Valid() && Idle(machine, q) && locks == old(locks) && b !in arch && OnlyParentRow(old(arch), b)
      ensures IsAt(machine, p, b, if r.Some? then Replaying(Generate(depth), Put(r.value))
                                  else Checking(FailGeneration))
      ensures r.Some? ==> r == Fold(builds, files, b)
      ensures r.Some? && builds[b].parent.None? ==> files[b].patch.content.target == map[]
      ensures AllAnswered() && ParentFree(b) ==> (r.Some? <==> Generatable(old(machine), b))
    {
      ParentIsOlder(machine, b);
      if builds[b].parent.Some? {
        var ok := EnsureParent(p, q, b, depth, pick);
        if !ok { return None; }
      }
      ghost var s := machine;
      r := ReplayChain(p, b, Generate(depth), Collected([b], builds[b].parent));
      OwnLinkReplays(s, b);
      BystanderStays(s, machine, p, q);
    }

    /** The insert of the archive row. */
    method InsertArchive(p: Pid, b: BuildId, depth: nat, key: Key, pick: Format) returns (ok: bool)
      requires Valid() && IsAt(machine, p, b, Replaying(Generate(depth), Save(key))) && b !in arch
      modifies this`machine, this`clock, this`arch
      ensures Valid() && Others(p) == old(Others(p))
      ensures IsAt(machine, p, b, Checking(if ok then CheckBuild(depth + 1) else FailGeneration))
      ensures arch == if ok then old(arch)[b := ArchiveRow(Uploaded, Some(key), false)] else old(arch)
      ensures AllAnswered() ==> ok
    {
      ok := Call();
      if ok { arch := arch[b := ArchiveRow(Uploaded, Some(key), false)]; }
      AdvanceReplay(p, b, Generate(depth), Save(key), ok, pick);
    }

    /** The upload and the insert. */
    method StoreArchive(p: Pid, b: BuildId, depth: nat, tree: Tree, pick: Format) returns (ok: bool)
      requires Valid() && IsAt(machine, p, b, Replaying(Generate(depth), Put(tree))) && b !in arch
      modifies this`machine, this`clock, this`objects, this`uuids, this`arch
      ensures Valid() && Others(p) == old(Others(p))
      ensures IsAt(machine, p, b, Checking(if ok then CheckBuild(depth + 1) else FailGeneration))
      ensures if ok then HasArchive(b) && arch == old(arch)[b := arch[b]] else arch == old(arch)
      ensures AllAnswered() ==> ok
    {
      var key := Upload(p, b, Generate(depth), tree, pick);
      if key.None? { return false; }
      ok := InsertArchive(p, b, depth, key.value, pick);
    }

    /** No row changed but those of b and of its parent. */
    predicate OnlyFamilyRows(before: map<BuildId, ArchiveRow>, b: BuildId)
      requires b in builds
      reads this`builds, this`arch
    {
      forall x | x in before && x != b && builds[b].parent != Some(x) :: x in arch && arch[x] == before[x]
    }

    /** generateArchiveDefault. */
    method GenerateArchive(p: Pid, q: Pid, b: BuildId, depth: nat, pick: Format) returns (ok: bool)
      requires Valid() && Known(b) && FilesReady(files, b) && Idle(machine, q) && p != q && b !in arch
      requires IsAt(machine, p, b, StartGeneration(b, builds[b].parent, depth))
      modifies this`machine, this`clock, this`objects, this`uuids, this`arch, this`locks
      ensures Valid() && Idle(machine, q) && locks == old(locks) && OnlyFamilyRows(old(arch), b)
      ensures IsAt(machine, p, b, Checking(if ok then CheckBuild(depth + 1) else FailGeneration))
      ensures if ok then HasArchive(b) else b !in arch
      ensures AllAnswered() && ParentFree(b) ==> (ok <==> Generatable(old(machine), b))
    {
      var tree := GenerateTree(p, q, b, depth, pick);
      if tree.None? { return false; }
      ghost var s := machine;
      ok := StoreArchive(p, b, depth, tree.value, pick);
      BystanderStays(s, machine, p, q);
    }

    predicate HasBroken(b: BuildId)
      requires b in files
      reads this`files
    {
      files[b].patch.Broken? || files[b].signature.Broken?
    }

    predicate HasRequired(b: BuildId)
      requires b in files
      reads this`files
    {
      Positive(files[b].patch) && Positive(files[b].signature)
    }

    predicate HasArchive(b: BuildId)
      reads this`arch
    {
      b in arch && arch[b].state == Uploaded
    }

    /** The build is done and leads its channel, or it failed before it had a row. */
    predicate Concluded(b: BuildId, well: bool)
      reads this`status, this`arch, this`builds, this`heads
    {
      if well then b in status && status[b] == Completed && HasArchive(b) && IsHeadOfItsChannel(b)
      else b in status && status[b] == Failed && b !in arch
    }

    /** checkAndUpdateBuildState, with q to serve the nested request. Left alone, with no
        failing call and the parent's lock free, it completes a build that has its
        archive; of a started build with its two files it generates the archive and
        completes it exactly when the patch matches and applies and the parent's
        archive is warm or can be rebuilt, and fails it otherwise. */
    method CheckAndUpdateBuildState(p: Pid, q: Pid, b: BuildId, depth: nat, pick: Format)
      requires Valid() && IsAt(machine, p, b, Checking(CheckBuild(depth))) && Known(b) && depth <= 2
      requires Idle(machine, q) && p != q
      modifies this`machine, this`clock, this`objects, this`uuids, this`arch, this`status, this`heads, this`locks
      ensures Valid() && p !in machine.procs && Idle(machine, q) && locks == old(locks) && Known(b)
      ensures OnlyFamilyRows(old(arch), b)
      ensures forall x | x in old(status) && x != b :: x in status && status[x] == old(status)[x]
      ensures old(status)[b] == Completed || old(status)[b] == Failed ==>
                arch == old(arch) && status == old(status) && heads == old(heads)
      ensures old(HasArchive(b)) ==> arch == old(arch)
      ensures !HasBroken(b) && !(files[b].patch.Ready? && files[b].patch.size > 0
                                 && files[b].signature.Ready? && files[b].signature.size > 0) ==>
                arch == old(arch) && status == old(status) && heads == old(heads)
      ensures AllAnswered() && (old(status)[b] == Started || old(status)[b] == Processing) ==>
                && (files[b].patch.Broken? || files[b].signature.Broken? ==> status[b] == Failed)
                && (!HasBroken(b) && HasRequired(b) && old(HasArchive(b)) ==> Concluded(b, true))
                && (!HasBroken(b) && HasRequired(b) && !old(HasArchive(b)) && old(status)[b] == Started && ParentFree(b)
                    ==> Concluded(b, Generatable(old(machine), b)))
      decreases 2 - depth
    {
      ghost var s := machine;
      var seen := ReadBuild(p, b, depth);
      BystanderStays(s, machine, p, q);
      SameGeneration(s, machine, b);
      if seen.None? { return; }
      if HasRequired(b) && !HasBroken(b) && !HasArchive(b) && seen.value == Started {
        GenerateAndCheck(p, q, b, depth, pick);
      } else {
        ConcludeCheck(p, q, b, depth, seen.value);
      }
    }

    /** A check that generates nothing. */
    method ConcludeCheck(p: Pid, q: Pid, b: BuildId, depth: nat, seen: BuildState)
      requires Valid() && Known(b) && Idle(machine, q) && p != q && seen == status[b] && !Over(seen)
      requires HasBroken(b) || !HasRequired(b) || HasArchive(b) || seen != Started
      requires match AfterCheckFiles(machine, b, depth, seen)
               case Some(next) => IsAt(machine, p, b, next)
               case None => p !in machine.procs
      modifies this`machine, this`clock, this`status, this`heads
      ensures Valid() && p !in machine.procs && Idle(machine, q) && Known(b)
      ensures forall x | x in old(status) && x != b :: x in status && status[x] == old(status)[x]
      ensures !HasBroken(b) && !HasRequired(b) ==> status == old(status) && heads == old(heads)
      ensures AllAnswered() && HasBroken(b) ==> status[b] == Failed
      ensures AllAnswered() && !HasBroken(b) && HasRequired(b) && HasArchive(b) ==> Concluded(b, true)
    {
      ghost var s := machine;
      if HasBroken(b) {
        FailBuild(p, b, FailBroken);
        BystanderStays(s, machine, p, q);
      } else if HasRequired(b) && HasArchive(b) {
        CompleteBuild(p, b);
        BystanderStays(s, machine, p, q);
      }
    }

    /** The claim, the generation it allows and the check after it. */
    method GenerateAndCheck(p: Pid, q: Pid, b: BuildId, depth: nat, pick: Format)
      requires Valid() && IsAt(machine, p, b, Checking(Claim(depth))) && Known(b) && depth <= 2
      requires Idle(machine, q) && p != q && !HasBroken(b) && HasRequired(b) && status[b] == Started
      modifies this`machine, this`clock, this`objects, this`uuids, this`arch, this`status, this`heads, this`locks
      ensures Valid() && p !in machine.procs && Idle(machine, q) && locks == old(locks) && Known(b)
      ensures OnlyFamilyRows(old(arch), b)
      ensures forall x | x in old(status) && x != b :: x in status && status[x] == old(status)[x]
      ensures AllAnswered() && ParentFree(b) ==> Concluded(b, Generatable(old(machine), b))
      decreases 2 - depth, 1
    {
      ghost var s := machine;
      ClaimIsFirst(machine, p, b, depth);
      var claimed := ClaimBuild(p, b, depth);
      BystanderStays(s, machine, p, q);
      if !claimed { return; }
      SameGeneration(s, machine, b);
      FinishGeneration(p, q, b, depth, pick);
    }

    method FinishGeneration(p: Pid, q: Pid, b: BuildId, depth: nat, pick: Format)
      requires Valid() && Known(b) && b !in arch && depth == 1 && status[b] == Processing
      requires Idle(machine, q) && p != q && !HasBroken(b) && HasRequired(b)
      requires IsAt(machine, p, b, StartGeneration(b, builds[b].parent, depth))
      modifies this`machine, this`clock, this`objects, this`uuids, this`arch, this`status, this`heads, this`locks
      ensures Valid() && p !in machine.procs && Idle(machine, q) && locks == old(locks) && Known(b)
      ensures OnlyFamilyRows(old(arch), b)
      ensures forall x | x in old(status) && x != b :: x in status && status[x] == old(status)[x]
      ensures AllAnswered() && ParentFree(b) ==> Concluded(b, Generatable(old(machine), b))
      decreases 2 - depth, 0
    {
      var ok := GenerateArchive(p, q, b, depth, pick);
      ghost var s := machine;
      if ok {
        CheckAndUpdateBuildState(p, q, b, depth + 1, pick);
      } else {
        FailBuild(p, b, FailGeneration);
        BystanderStays(s, machine, p, q);
      }
    }
  }

  predicate Over(status: BuildState) { status == Completed || status == Failed }

  /** The parent's archive, if there is a parent, is warm or can be rebuilt. */
  ghost predicate ParentServable(s: State, b: BuildId) {
    b in s.builds && match s.builds[b].parent
                     case None => true
                     case Some(parent) => Warm(s, parent) || CanRebuild(s, parent)
  }

  /** The build's own patch is stored, matches and applies on top of its parent, and
      the parent's archive is at hand. */
  ghost predicate Generatable(s: State, b: BuildId) {
    PatchStored(s, b) && LinkChecked(s.builds, s.files, b) && ParentServable(s, b)
  }

  lemma SameGeneration(s: State, s': State, b: BuildId)
    requires s'.builds == s.builds && s'.files == s.files && s'.lost == s.lost
    requires s'.arch == s.arch && s'.objects == s.objects && s'.status.Keys == s.status.Keys
    requires Reachable(s) && forall x | x in s.status && x != b :: s'.status[x] == s.status[x]
    ensures Generatable(s', b) <==> Generatable(s, b)
  {
    if b in s.builds && s.builds[b].parent.Some? {
      ParentIsOlder(s, b);
      SameRebuild(s, s', s.builds[b].parent.value);
    }
  }

  lemma ParentIsOlder(s: State, b: BuildId)
    requires Reachable(s) && b in s.builds
    ensures s.builds[b].parent.Some? ==> s.builds[b].parent.value < b
  {
    ReachableKeeps(s);
    assert BuildOk(s, b);
  }

  /** On top of the parent's uploaded archive the replay of the own patch succeeds
      exactly when the patch is stored, matches and applies. */
  lemma OwnLinkReplays(s: State, b: BuildId)
    requires Reachable(s) && b in s.builds && FilesReady(s.files, b)
    requires s.builds[b].parent.Some? ==> UploadedRow(s, s.builds[b].parent.value)
    ensures var r := Replayed(s, Collected([b], s.builds[b].parent));
            && (r.Some? <==> PatchStored(s, b) && LinkChecked(s.builds, s.files, b))
            && (r.Some? ==> r == Fold(s.builds, s.files, b))
  {
    ReachableKeeps(s);
    assert BuildOk(s, b);
    match s.builds[b].parent
    case None => OwnLinkApplies(s, b, EMPTY_TREE, None);
    case Some(parent) =>
      assert LifeOk(s, parent) && RowOk(s, parent) && ObjectOk(s, s.arch[parent].path.value);
      OwnLinkApplies(s, b, Fold(s.builds, s.files, parent).value, Some(s.files[parent].signature.content));
  }

  lemma OwnLinkApplies(s: State, b: BuildId, tree: Tree, expected: Option<Container>)
    requires FilesReady(s.files, b) && ReadyFor(s, b, tree, expected)
    ensures var r := ReplayLinks(s, [b], tree, expected);
            && (r.Some? <==> PatchStored(s, b) && LinkChecked(s.builds, s.files, b))
            && (r.Some? ==> r == Fold(s.builds, s.files, b))
  {
    assert [b][1..] == [];
  }

  /** Only a check of the first round claims a build, and a started build has no
      archive row. */
  lemma ClaimIsFirst(s: State, p: Pid, b: BuildId, depth: nat)
    requires Reachable(s) && p in s.procs && s.procs[p] == Proc(b, Checking(Claim(depth)))
    requires b in s.builds && b in s.status && s.status[b] == Started
    ensures depth == 1 && b !in s.arch
  {
    ReachableKeeps(s);
    assert ProcOk(s, p, s.procs[p]) && LifeOk(s, b);
  }

  lemma KnownBuilds(s: State)
    requires Reachable(s)
    ensures s.status.Keys <= s.builds.Keys
  {
    ReachableKeeps(s);
  }

  lemma UploadedServes(s: State, b: BuildId)
    requires Reachable(s) && b in s.arch && s.arch[b].state == Uploaded && s.arch[b].path.Some?
    ensures Serves(s, s.arch[b].path.value, b)
  {
    ReachableKeeps(s);
    assert RowOk(s, b) && ObjectOk(s, s.arch[b].path.value);
  }

  /** The patch was made for the expected tree, or for the empty one when none is, and
      makes the tree its signature lists. */
  predicate Fits(files: Files, expected: Option<Container>)
    requires files.patch.Ready? && files.signature.Ready?
  {
    && files.patch.content.target == (if expected.Some? then expected.value else map[])
    && files.patch.content.source == files.signature.content
  }

  /** The row that a failed rebuild leaves when its own calls succeed: an evicted one is
      as it was, any other one stays marked as rebuilding. */
  function FailedRow(found: Option<ArchiveRow>): ArchiveRow {
    match found
    case None => ArchiveRow(Rebuilding, None, false)
    case Some(row) => ArchiveRow(if row.evictedAt then Evicted else Rebuilding, row.path, row.evictedAt)
  }

  /** And when they do not: it may stay marked; and when only the write of the rebuilt row
      failed, it is evicted with the path of the new archive. */
  predicate LeftBehind(found: Option<ArchiveRow>, after: ArchiveRow, key: Key) {
    || after == FailedRow(found)
    || (found.Some? && found.value.evictedAt
        && after in {ArchiveRow(Rebuilding, found.value.path, true), ArchiveRow(Evicted, Some(key), false)})
  }

  lemma LockIsGivenBack(locks: map<BuildId, Pid>, b: BuildId, p: Pid)
    requires b !in locks
    ensures locks[b := p] - {b} == locks
  {
  }

  /** Nothing is stored but an archive under the given key. */
  ghost predicate MayStore(before: map<Key, Archive>, after: map<Key, Archive>, key: Key) {
    after == before || exists tree :: after == before[key := Archive(key.format, tree)]
  }

  /** The rows after a rebuild that fails although all its calls succeed. */
  function RowsAfterFailure(arch: map<BuildId, ArchiveRow>, completed: bool, b: BuildId): map<BuildId, ArchiveRow> {
    if completed then arch[b := FailedRow(RowOf(arch, b))] else arch
  }

  /** The mark and what follows it, seen together. */
  lemma RebuiltRow(before: map<BuildId, ArchiveRow>, marked: map<BuildId, ArchiveRow>, after: map<BuildId, ArchiveRow>,
                   b: BuildId, wasEvicted: bool, r: Option<Key>, key: Key)
    requires marked == before[b := RebuildingCopy(RowOf(before, b))]
    requires wasEvicted == (b in before && before[b].evictedAt)
    requires r.Some? ==> r == Some(key) && after == marked[b := ArchiveRow(Uploaded, r, false)]
    requires r.None? ==> b in after && after == marked[b := after[b]] && (!wasEvicted ==> after == marked)
    requires r.None? && wasEvicted ==> after[b] in {marked[b], marked[b].(state := Evicted),
                                                    ArchiveRow(Evicted, Some(key), false)}
    ensures RebuildChange(before, after, true, b, r, key)
    ensures r.None? && (wasEvicted ==> after[b] == marked[b].(state := Evicted)) ==>
              after == RowsAfterFailure(before, true, b)
  {
    if r.Some? { assert after == before[b := ArchiveRow(Uploaded, r, false)]; }
    else { assert after == before[b := after[b]]; }
  }

  /** What rebuildArchive does to the rows: only a completed build is touched; it is
      uploaded under the fresh key, or it is left behind cold. */
  ghost predicate RebuildChange(before: map<BuildId, ArchiveRow>, after: map<BuildId, ArchiveRow>, completed: bool,
                                b: BuildId, r: Option<Key>, key: Key) {
    match r
    case Some(path) => completed && path == key && after == before[b := ArchiveRow(Uploaded, r, false)]
    case None =>
      after == before || (completed && b in after && after == before[b := after[b]]
                          && LeftBehind(RowOf(before, b), after[b], key))
  }

  /** What ensureArchive does: nothing when the archive is there, else a rebuild. */
  ghost predicate EnsureChange(before: map<BuildId, ArchiveRow>, after: map<BuildId, ArchiveRow>,
                               objects: map<Key, Archive>, objects': map<Key, Archive>, completed: bool,
                               b: BuildId, r: Option<Key>, key: Key) {
    || (after == before && objects' == objects
        && (r.Some? ==> b in before && before[b].state == Uploaded && before[b].path == r))
    || (RebuildChange(before, after, completed, b, r, key) && MayStore(objects, objects', key))
  }

  predicate WasEvicted(arch: map<BuildId, ArchiveRow>, b: BuildId) {
    b in arch && arch[b].state == Evicted && arch[b].evictedAt
  }
}
