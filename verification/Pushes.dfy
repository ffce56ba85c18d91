/** What is pushed is what is kept: a patch made between two trees, as a client does,
    applies to the one and gives the other, so the fold of a lineage of such pushes is
    the last tree pushed, and that tree is what its archive holds. */
module Pushes {
  import opened Records
  import opened Trees
  import opened Server
  import opened ServerSafety

  // ---------- patches between trees ----------

  /** The files of a tree with their sizes: what a signature lists. */
  function Sizes(tree: Tree): Container {
    map file | file in tree :: |tree[file]|
  }

  /** a and b begin with the same n bytes and end with the same m others. */
  predicate Shares(a: Bytes, b: Bytes, n: nat, m: nat) {
    n + m <= |a| && n + m <= |b| && a[..n] == b[..n] && a[|a| - m..] == b[|b| - m..]
  }

  /** What both ends share with an old file is copied from it, the rest is sent. */
  function Script(file: string, a: Bytes, b: Bytes, n: nat, m: nat): seq<Op>
    requires Shares(a, b, n, m)
  {
    [Copy(file, 0, n), Literal(b[n..|b| - m]), Copy(file, |a| - m, m)]
  }

  /** The script sends the whole file, or what it lacks of some file of the old tree. */
  ghost predicate Describes(script: seq<Op>, from: Tree, data: Bytes) {
    || script == [Literal(data)]
    || exists file, n: nat, m: nat ::
         file in from && Shares(from[file], data, n, m) && script == Script(file, from[file], data, n, m)
  }

  /** The patch was made to turn one tree into the other. */
  ghost predicate IsDiff(patch: Patch, from: Tree, to: Tree) {
    && patch.target == Sizes(from) && patch.source == Sizes(to)
    && forall file | file in to :: file in patch.script && Describes(patch.script[file], from, to[file])
  }

  lemma OneOp(op: Op, target: Container, tree: Tree)
    ensures RunOps([op], target, tree) == Piece(op, target, tree)
  {
    assert [op][1..] == [];
    if Piece(op, target, tree).Some? {
      var data := Piece(op, target, tree).value;
      assert data + [] == data;
    }
  }

  lemma ThreeOps(a: Op, b: Op, c: Op, target: Container, tree: Tree)
    requires Piece(a, target, tree).Some? && Piece(b, target, tree).Some? && Piece(c, target, tree).Some?
    ensures RunOps([a, b, c], target, tree)
         == Some(Piece(a, target, tree).value + (Piece(b, target, tree).value + Piece(c, target, tree).value))
  {
    assert [a, b, c][1..] == [b, c] && [b, c][1..] == [c];
    OneOp(c, target, tree);
  }

  lemma PartsJoin(a: Bytes, b: Bytes, n: nat, m: nat)
    requires Shares(a, b, n, m)
    ensures a[..n] + (b[n..|b| - m] + a[|a| - m..]) == b
  {
    assert b == b[..n] + (b[n..|b| - m] + b[|b| - m..]);
  }

  lemma CopyTakes(file: string, tree: Tree, offset: nat, length: nat)
    requires file in tree && offset + length <= |tree[file]|
    ensures Piece(Copy(file, offset, length), Sizes(tree), tree) == Some(tree[file][offset..offset + length])
  {
  }

  lemma ScriptGivesFile(file: string, tree: Tree, b: Bytes, n: nat, m: nat)
    requires file in tree && Shares(tree[file], b, n, m)
    ensures RunOps(Script(file, tree[file], b, n, m), Sizes(tree), tree) == Some(b)
  {
    var a := tree[file];
    CopyTakes(file, tree, 0, n);
    CopyTakes(file, tree, |a| - m, m);
    assert a[0..n] == a[..n] && a[|a| - m..|a| - m + m] == a[|a| - m..];
    ThreeOps(Copy(file, 0, n), Literal(b[n..|b| - m]), Copy(file, |a| - m, m), Sizes(tree), tree);
    PartsJoin(a, b, n, m);
  }

  lemma DescribedFile(script: seq<Op>, from: Tree, data: Bytes)
    requires Describes(script, from, data)
    ensures RunOps(script, Sizes(from), from) == Some(data)
  {
    if script == [Literal(data)] {
      OneOp(Literal(data), Sizes(from), from);
    } else {
      var file, n: nat, m: nat :| file in from && Shares(from[file], data, n, m)
                                  && script == Script(file, from[file], data, n, m);
      ScriptGivesFile(file, from, data, n, m);
    }
  }

  /** Between any two trees the patch applies, and gives the second. */
  lemma DiffIsApplied(patch: Patch, from: Tree, to: Tree)
    requires IsDiff(patch, from, to)
    ensures Apply(patch, from) == Some(to)
  {
    forall file | file in to ensures RunOps(patch.script[file], patch.target, from) == Some(to[file]) {
      DescribedFile(patch.script[file], from, to[file]);
    }
    assert Apply(patch, from).value == to;
  }

  // ---------- lineages of pushes ----------

  /** Every build up to b was pushed as a patch made from its parent's tree, with the
      signature of its own. */
  ghost predicate Pushed(builds: map<BuildId, Build>, files: map<BuildId, Files>, trees: map<BuildId, Tree>, b: BuildId)
    decreases b
  {
    && b in builds && b in files && b in trees
    && files[b].patch.Ready? && files[b].signature.Ready? && files[b].signature.content == Sizes(trees[b])
    && match builds[b].parent
       case None => IsDiff(files[b].patch.content, map[], trees[b])
       case Some(parent) =>
         parent < b && Pushed(builds, files, trees, parent)
         && IsDiff(files[b].patch.content, trees[parent], trees[b])
  }

  /** Such pushes match their parents and fold to the last tree. */
  lemma {:induction false} PushesFold(builds: map<BuildId, Build>, files: map<BuildId, Files>,
                                      trees: map<BuildId, Tree>, b: BuildId)
    requires Pushed(builds, files, trees, b)
    ensures Fold(builds, files, b) == Some(trees[b]) && LinkChecked(builds, files, b)
    decreases b
  {
    match builds[b].parent
    case None =>
      DiffIsApplied(files[b].patch.content, map[], trees[b]);
      assert Sizes(map[]) == map[];
    case Some(parent) =>
      PushesFold(builds, files, trees, parent);
      DiffIsApplied(files[b].patch.content, trees[parent], trees[b]);
  }

  /** In every state of every run, an archive whose lineage was pushed so holds exactly
      the tree that was pushed. */
  lemma PushedIsServed(states: seq<State>, events: seq<Event>, n: nat, trees: map<BuildId, Tree>, b: BuildId)
    requires IsRun(states, events) && n < |states| && Pushed(states[n].builds, states[n].files, trees, b)
    requires b in states[n].arch && states[n].arch[b].state == Uploaded
    ensures var s := states[n];
            && s.arch[b].path.Some? && s.arch[b].path.value in s.objects
            && s.objects[s.arch[b].path.value].tree == trees[b]
  {
    UploadedArchivesAreExact(states, events, n, b);
    PushesFold(states[n].builds, states[n].files, trees, b);
  }
}
