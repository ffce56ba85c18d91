/** One pass of the archive GC as it is written: guarded eviction, mark before
    delete, the sweep of interrupted deletes, and its counters. Each database or
    storage call is also a step of the server machine, so every state the pass
    goes through is a reachable one. */
module ArchiveGc {
  import opened Records
  import opened Trees
  import opened Server
  import opened ServerRuns

  /** Which calls of one eviction succeed. */
  datatype EvictCalls = EvictCalls(lock: bool, read: bool, head: bool, build: bool, patchRow: bool, patchObject: bool,
                                   signatureRow: bool, signatureObject: bool, mark: bool, delete: bool, clear: bool)

  datatype SweepCalls = SweepCalls(lock: bool, read: bool, delete: bool, clear: bool)

  datatype Stats = Stats(evicted: nat, bytesFreed: nat, sweptObjects: nat, skippedLock: nat, skippedGuard: nat,
                         errors: nat)

  datatype Outcome = LockError | Busy | ReadError | Guarded | MarkError | DeleteError | Freed(cleared: bool)

  function Counted(stats: Stats, outcome: Outcome, size: nat): Stats {
    match outcome
    case Busy => stats.(skippedLock := stats.skippedLock + 1)
    case Guarded => stats.(skippedGuard := stats.skippedGuard + 1)
    case Freed(cleared) =>
      stats.(evicted := stats.evicted + 1, bytesFreed := stats.bytesFreed + size,
             errors := stats.errors + if cleared then 0 else 1)
    case _ => stats.(errors := stats.errors + 1)
  }

  lemma HeadIsValue(s: State, b: BuildId)
    ensures IsHead(s, b) <==> Some(b) in s.heads.Values
  {
  }

  /** Releasing the lock and ending the process. */
  lemma ReleaseReachable(s: State, p: Pid, b: BuildId)
    requires Reachable(s) && p in s.procs && s.procs[p] == Proc(b, Unlock(None))
    ensures Reachable(CrashOf(Move(s.(locks := s.locks - {b}), p, b, Some(Returned(None))), p))
  {
    LeadsNext(AnyEvent(), Init(), s, Step(p, true, Zip));
    LeadsNext(AnyEvent(), Init(), Move(s.(locks := s.locks - {b}), p, b, Some(Returned(None))), Crash(p));
  }

  class Gc {
    const ttl: nat
    var status: map<BuildId, BuildState>
    var files: map<BuildId, Files>
    var lost: set<BuildId>
    var heads: map<Channel, Option<BuildId>>
    var arch: map<BuildId, ArchiveRow>
    var objects: map<Key, Archive>
    var locks: map<BuildId, Pid>
    var sizes: map<BuildId, nat>
    var accessed: map<BuildId, nat>
    var stats: Stats
    ghost var machine: State

    /** A pass starts from whatever state the server is in. */
    constructor (s: State, ttl: nat, sizes: map<BuildId, nat>, accessed: map<BuildId, nat>)
      requires Reachable(s)
      ensures Valid() && machine == s && this.ttl == ttl && this.sizes == sizes && this.accessed == accessed
      ensures stats == Stats(0, 0, 0, 0, 0, 0)
    {
      this.ttl, this.sizes, this.accessed := ttl, sizes, accessed;
      status, files, lost, heads := s.status, s.files, s.lost, s.heads;
      arch, objects, locks := s.arch, s.objects, s.locks;
      stats := Stats(0, 0, 0, 0, 0, 0);
      machine := s;
    }

    ghost predicate Valid()
      reads this
    {
      && Reachable(machine)
      && status == machine.status && files == machine.files && lost == machine.lost && heads == machine.heads
      && arch == machine.arch && objects == machine.objects && locks == machine.locks
    }

    /** The machine makes the call as well. */
    ghost method Advance(p: Pid, b: BuildId, pc: EvictPc, ok: bool)
      requires Reachable(machine) && IsAt(machine, p, b, Evicting(pc))
      modifies this`machine
      ensures Reachable(machine)
      ensures machine == Move(WriteEvict(old(machine), p, b, pc, ok), p, b, AfterEvict(old(machine), b, pc, ok))
    {
      EvictStepLeads(AnyEvent(), Init(), machine, p, b, pc, ok);
      machine := Move(WriteEvict(machine, p, b, pc, ok), p, b, AfterEvict(machine, b, pc, ok));
    }

    predicate Passes(b: BuildId, check: GuardCheck)
      reads this
    {
      match check
      case NotHead => Some(b) !in heads.Values
      case BuildCompleted => b in status && status[b] == Completed
      case PatchRowThere => b in files && files[b].patch.Ready?
      case PatchThere => b in files && files[b].patch.Ready? && b !in lost
      case SignatureRowThere => b in files && files[b].signature.Ready?
      case SignatureThere => b in files && files[b].signature.Ready?
    }

    /** Nobody needs the archive warm, and all that is needed to rebuild it is
        stored: what the six guards establish together. */
    predicate Spare(b: BuildId)
      reads this`status, this`files, this`lost, this`heads
    {
      && Some(b) !in heads.Values
      && b in status && status[b] == Completed
      && b in files && files[b].patch.Ready? && b !in lost && files[b].signature.Ready?
    }

    /** The row of a spare archive that was last used long enough ago. */
    predicate Evictable(row: ArchiveRow, b: BuildId, now: nat)
      reads this`status, this`files, this`lost, this`heads, this`accessed
    {
      row.state == Uploaded && row.path.Some? && b in accessed && accessed[b] + ttl <= now && Spare(b)
    }

    lemma PassesAgree(b: BuildId, check: GuardCheck)
      requires Valid()
      ensures Passes(b, check) == GuardPasses(machine, b, check)
    {
      HeadIsValue(machine, b);
    }

    /** One guard of evictArchive. */
    method Check(p: Pid, b: BuildId, row: ArchiveRow, check: GuardCheck, ok: bool) returns (pass: bool)
      requires Valid() && IsAt(machine, p, b, Evicting(Guard(row, check)))
      modifies this`machine
      ensures Valid() && pass == (ok && Passes(b, check))
      ensures IsAt(machine, p, b, if pass then Evicting(AfterGuard(row, check)) else Unlock(None))
      ensures machine.pending == old(machine).pending
    {
      pass := ok && Passes(b, check);
      PassesAgree(b, check);
      Advance(p, b, Guard(row, check), ok);
    }

    /** The guards on one required file: its row, then its object. */
    method CheckFile(p: Pid, b: BuildId, row: ArchiveRow, rowCheck: GuardCheck, objectCheck: GuardCheck, rowOk: bool,
                     objectOk: bool)
      returns (pass: bool)
      requires Valid() && IsAt(machine, p, b, Evicting(Guard(row, rowCheck)))
      requires AfterGuard(row, rowCheck) == Guard(row, objectCheck)
      modifies this`machine
      ensures Valid()
      ensures pass == (rowOk && objectOk && Passes(b, rowCheck) && Passes(b, objectCheck))
      ensures IsAt(machine, p, b, if pass then Evicting(AfterGuard(row, objectCheck)) else Unlock(None))
      ensures machine.pending == old(machine).pending
    {
      pass := Check(p, b, row, rowCheck, rowOk);
      if pass { pass := Check(p, b, row, objectCheck, objectOk); }
    }

    /** Nobody needs the archive warm, and the build is done. */
    method CheckUse(p: Pid, b: BuildId, row: ArchiveRow, headOk: bool, buildOk: bool) returns (pass: bool)
      requires Valid() && IsAt(machine, p, b, Evicting(Guard(row, NotHead)))
      modifies this`machine
      ensures Valid()
      ensures pass == (headOk && buildOk && Passes(b, NotHead) && Passes(b, BuildCompleted))
      ensures IsAt(machine, p, b, if pass then Evicting(Guard(row, PatchRowThere)) else Unlock(None))
      ensures machine.pending == old(machine).pending
    {
      pass := Check(p, b, row, NotHead, headOk);
      if pass { pass := Check(p, b, row, BuildCompleted, buildOk); }
    }

    method CheckAll(p: Pid, b: BuildId, row: ArchiveRow, recent: bool, calls: EvictCalls) returns (pass: bool)
      requires Valid() && IsAt(machine, p, b, Evicting(Guard(row, NotHead)))
      modifies this`machine
      ensures Valid()
      ensures pass == (GuardsAnswered(calls) && !recent && Spare(b))
      ensures IsAt(machine, p, b, if pass then Evicting(EvictMark(row)) else Unlock(None))
      ensures machine.pending == old(machine).pending
    {
      pass := CheckUse(p, b, row, calls.head && !recent, calls.build);
      if !pass { return; }
      pass := CheckFile(p, b, row, PatchRowThere, PatchThere, calls.patchRow, calls.patchObject);
      if !pass { return; }
      pass := CheckFile(p, b, row, SignatureRowThere, SignatureThere, calls.signatureRow, calls.signatureObject);
    }

    /** Everything re-verified under the lock: the row to evict, if any. */
    method Inspect(p: Pid, b: BuildId, now: nat, calls: EvictCalls) returns (row: Option<ArchiveRow>)
      requires Valid() && IsAt(machine, p, b, Evicting(EvictRead)) && b in arch && b in accessed
      modifies this`machine
      ensures Valid()
      ensures row == if Answered(calls) && Evictable(arch[b], b, now) then Some(arch[b]) else None
      ensures row.Some? <==>
                && calls.read && calls.head && calls.build && calls.patchRow && calls.patchObject
                && calls.signatureRow && calls.signatureObject
                && arch[b].state == Uploaded && arch[b].path.Some? && accessed[b] + ttl <= now
                && Some(b) !in heads.Values && b in status && status[b] == Completed
                && b in files && files[b].patch.Ready? && b !in lost && files[b].signature.Ready?
      ensures IsAt(machine, p, b, if row.Some? then Evicting(EvictMark(row.value)) else Unlock(None))
      ensures machine.pending == old(machine).pending
    {
      row := ReadRow(p, b, calls.read);
      if row.None? { return; }
      var recent := accessed[b] + ttl > now;
      var pass := CheckAll(p, b, row.value, recent, calls);
      assert pass == (GuardsAnswered(calls) && !recent && Spare(b));
      if !pass { row := None; }
    }

    /** The row as it is now, if it is still uploaded. */
    method ReadRow(p: Pid, b: BuildId, ok: bool) returns (row: Option<ArchiveRow>)
      requires Valid() && IsAt(machine, p, b, Evicting(EvictRead)) && b in arch
      modifies this`machine
      ensures Valid() && machine.pending == old(machine).pending
      ensures row == if ok && arch[b].state == Uploaded && arch[b].path.Some? then Some(arch[b]) else None
      ensures IsAt(machine, p, b, if row.Some? then Evicting(Guard(row.value, NotHead)) else Unlock(None))
    {
      Advance(p, b, EvictRead, ok);
      return if ok && arch[b].state == Uploaded && arch[b].path.Some? then Some(arch[b]) else None;
    }

    /** The object is deleted, then the path is cleared. */
    method Delete(p: Pid, b: BuildId, row: ArchiveRow, calls: EvictCalls) returns (outcome: Outcome)
      requires Valid() && IsAt(machine, p, b, Evicting(DeleteObject(MarkedRow(row)))) && b in arch && row.path.Some?
      modifies this`machine, this`arch, this`objects
      ensures Valid() && IsAt(machine, p, b, Unlock(None))
      ensures outcome == if !calls.delete then DeleteError else Freed(calls.clear)
      ensures arch == if outcome == Freed(true) then old(arch)[b := ArchiveRow(Evicted, None, true)] else old(arch)
      ensures objects == if outcome.Freed? then old(objects) - {row.path.value} else old(objects)
      ensures machine.locks == old(machine).locks && machine.pending == old(machine).pending
    {
      if calls.delete { objects := objects - {row.path.value}; }
      Advance(p, b, DeleteObject(MarkedRow(row)), calls.delete);
      if !calls.delete { return DeleteError; }
      var cleared := ArchiveRow(Evicted, None, true);
      if calls.clear { arch := arch[b := cleared]; }
      Advance(p, b, ClearPath(cleared), calls.clear);
      return Freed(calls.clear);
    }

    /** Mark first, delete second. */
    method MarkAndDelete(p: Pid, b: BuildId, row: ArchiveRow, calls: EvictCalls) returns (outcome: Outcome)
      requires Valid() && IsAt(machine, p, b, Evicting(EvictMark(row))) && b in arch && row.path.Some?
      modifies this`machine, this`arch, this`objects
      ensures Valid() && IsAt(machine, p, b, Unlock(None))
      ensures outcome == if !calls.mark then MarkError else if !calls.delete then DeleteError else Freed(calls.clear)
      ensures arch == RowsAfter(old(arch), b, row, outcome)
      ensures objects == if outcome.Freed? then old(objects) - {row.path.value} else old(objects)
      ensures machine.locks == old(machine).locks && machine.pending == old(machine).pending
    {
      if calls.mark { arch := arch[b := MarkedRow(row)]; }
      Advance(p, b, EvictMark(row), calls.mark);
      if !calls.mark { return MarkError; }
      outcome := Delete(p, b, row, calls);
    }

    /** Releases the lock and ends the process of one candidate. */
    method Release(p: Pid, b: BuildId)
      requires Valid() && IsAt(machine, p, b, Unlock(None)) && HoldsOnly(machine, p, b)
      modifies this`machine, this`locks
      ensures Valid() && locks == old(locks) - {b} && Idle(machine, p)
    {
      ReleaseReachable(machine, p, b);
      machine := CrashOf(Move(machine.(locks := machine.locks - {b}), p, b, Some(Returned(None))), p);
      locks := locks - {b};
      assert machine.locks == locks;
    }

    /** The candidate's process begins. */
    ghost method Begin(p: Pid, b: BuildId, now: nat)
      requires Valid() && Idle(machine, p) && b in arch && Listable(arch[b], b, now)
      modifies this`machine
      ensures Valid() && IsAt(machine, p, b, Evicting(EvictLock)) && p !in machine.pending
    {
      HeadIsValue(machine, b);
      LeadsNext(AnyEvent(), Init(), machine, ListForEviction(p, b));
      machine := Do(machine, ListForEviction(p, b));
    }

    /** TryAcquireBuildArchiveLock, for an eviction or a sweep. */
    method TryLock(p: Pid, b: BuildId, sweep: bool, ok: bool) returns (taken: bool)
      requires Valid() && IsAt(machine, p, b, Evicting(if sweep then SweepLock else EvictLock))
      requires p !in machine.pending && NoLock(machine, p)
      modifies this`machine, this`locks
      ensures Valid() && taken == (ok && b !in old(locks))
      ensures taken ==> IsAt(machine, p, b, Evicting(if sweep then SweepRead else EvictRead))
      ensures taken ==> locks == old(locks)[b := p] && HoldsOnly(machine, p, b)
      ensures !taken ==> Idle(machine, p) && locks == old(locks)
    {
      taken := ok && b !in locks;
      if taken { TakeLock(p, b, sweep); } else { Advance(p, b, if sweep then SweepLock else EvictLock, ok); }
    }

    method TakeLock(p: Pid, b: BuildId, sweep: bool)
      requires Valid() && IsAt(machine, p, b, Evicting(if sweep then SweepLock else EvictLock))
      requires p !in machine.pending && NoLock(machine, p) && b !in locks
      modifies this`machine, this`locks
      ensures Valid() && IsAt(machine, p, b, Evicting(if sweep then SweepRead else EvictRead))
      ensures locks == old(locks)[b := p] && HoldsOnly(machine, p, b)
    {
      locks := locks[b := p];
      Advance(p, b, if sweep then SweepLock else EvictLock, true);
    }

    /** The part of evictArchive under the lock. */
    method EvictLocked(p: Pid, b: BuildId, now: nat, calls: EvictCalls) returns (outcome: Outcome)
      requires Valid() && IsAt(machine, p, b, Evicting(EvictRead)) && b in arch && b in accessed
      modifies this`machine, this`arch, this`objects
      ensures Valid() && IsAt(machine, p, b, Unlock(None)) && machine.pending == old(machine).pending
      ensures arch == RowsAfter(old(arch), b, old(arch[b]), outcome)
      ensures objects == ObjectsAfter(old(objects), old(arch[b]), outcome)
      ensures outcome == OutcomeUnderLock(calls, Evictable(old(arch[b]), b, now))
    {
      var row := Inspect(p, b, now, calls);
      if row.None? { return if calls.read then Guarded else ReadError; }
      outcome := MarkAndDelete(p, b, row.value, calls);
    }

    /** evictArchive once its process has begun. */
    method EvictListed(p: Pid, b: BuildId, now: nat, calls: EvictCalls) returns (outcome: Outcome)
      requires Valid() && IsAt(machine, p, b, Evicting(EvictLock)) && p !in machine.pending && NoLock(machine, p)
      requires b in arch && b in accessed
      modifies this`machine, this`arch, this`objects, this`locks
      ensures Valid() && Idle(machine, p) && locks == old(locks)
      ensures arch == RowsAfter(old(arch), b, old(arch[b]), outcome)
      ensures objects == ObjectsAfter(old(objects), old(arch[b]), outcome)
      ensures outcome == OutcomeOf(calls, b in old(locks), Evictable(old(arch[b]), b, now))
    {
      var taken := TryLock(p, b, false, calls.lock);
      if !taken { return if calls.lock then Busy else LockError; }
      outcome := EvictAndRelease(p, b, now, calls);
      assert locks == old(locks);
    }

    method EvictAndRelease(p: Pid, b: BuildId, now: nat, calls: EvictCalls) returns (outcome: Outcome)
      requires Valid() && IsAt(machine, p, b, Evicting(EvictRead)) && HoldsOnly(machine, p, b) && b in arch
      requires b in accessed
      modifies this`machine, this`arch, this`objects, this`locks
      ensures Valid() && Idle(machine, p) && locks == old(locks) - {b}
      ensures arch == RowsAfter(old(arch), b, old(arch[b]), outcome)
      ensures objects == ObjectsAfter(old(objects), old(arch[b]), outcome)
      ensures outcome == OutcomeUnderLock(calls, Evictable(old(arch[b]), b, now))
    {
      outcome := EvictLocked(p, b, now, calls);
      Release(p, b);
    }

    /** evictArchive for one candidate as it was listed. */
    method EvictArchive(p: Pid, b: BuildId, now: nat, calls: EvictCalls) returns (outcome: Outcome)
      requires Valid() && Idle(machine, p) && b in arch && Listable(arch[b], b, now)
      modifies this`machine, this`arch, this`objects, this`locks, this`stats
      ensures Valid() && Idle(machine, p) && locks == old(locks)
      ensures stats == Counted(old(stats), outcome, sizes[b])
      ensures arch == RowsAfter(old(arch), b, old(arch[b]), outcome)
      ensures objects == ObjectsAfter(old(objects), old(arch[b]), outcome)
      ensures outcome == OutcomeOf(calls, b in old(locks), Evictable(old(arch[b]), b, now))
    {
      Begin(p, b, now);
      outcome := EvictListed(p, b, now, calls);
      stats := Counted(stats, outcome, sizes[b]);
    }

    // ---------- the sweep ----------

    ghost method BeginSweep(p: Pid, b: BuildId)
      requires Valid() && Enabled(machine, ListForSweep(p, b))
      modifies this`machine
      ensures Valid() && IsAt(machine, p, b, Evicting(SweepLock)) && p !in machine.pending
    {
      LeadsNext(AnyEvent(), Init(), machine, ListForSweep(p, b));
      machine := Do(machine, ListForSweep(p, b));
    }

    /** Retries the delete of an evicted row that still has a path. */
    method SweepLocked(p: Pid, b: BuildId, calls: SweepCalls) returns (swept: bool)
      requires Valid() && IsAt(machine, p, b, Evicting(SweepRead)) && Leftover(b)
      modifies this`machine, this`arch, this`objects
      ensures Valid() && IsAt(machine, p, b, Unlock(None)) && machine.pending == old(machine).pending
      ensures swept == (calls.read && calls.delete && calls.clear)
      ensures arch == if swept then old(arch)[b := old(arch[b]).(path := None)] else old(arch)
      ensures objects == if calls.read && calls.delete then old(objects) - {old(arch[b]).path.value} else old(objects)
    {
      Advance(p, b, SweepRead, calls.read);
      if !calls.read { return false; }
      swept := SweepRow(p, b, arch[b], calls);
    }

    /** The delete and, when it succeeds, the path. */
    method SweepRow(p: Pid, b: BuildId, row: ArchiveRow, calls: SweepCalls) returns (swept: bool)
      requires Valid() && IsAt(machine, p, b, Evicting(DeleteObject(row))) && Leftover(b) && row == arch[b]
      modifies this`machine, this`arch, this`objects
      ensures Valid() && IsAt(machine, p, b, Unlock(None)) && machine.pending == old(machine).pending
      ensures swept == (calls.delete && calls.clear)
      ensures arch == if swept then old(arch)[b := row.(path := None)] else old(arch)
      ensures objects == if calls.delete then old(objects) - {row.path.value} else old(objects)
    {
      if calls.delete { objects := objects - {row.path.value}; }
      Advance(p, b, DeleteObject(row), calls.delete);
      if !calls.delete { return false; }
      var cleared := ArchiveRow(row.state, None, row.evictedAt);
      if calls.clear { arch := arch[b := cleared]; }
      Advance(p, b, ClearPath(cleared), calls.clear);
      return calls.clear;
    }

    predicate Leftover(b: BuildId)
      reads this
    {
      b in arch && arch[b].state == Evicted && arch[b].path.Some?
    }

    method SweepListed(p: Pid, b: BuildId, calls: SweepCalls) returns (swept: bool)
      requires Valid() && IsAt(machine, p, b, Evicting(SweepLock)) && p !in machine.pending && NoLock(machine, p)
      requires Leftover(b)
      modifies this`machine, this`arch, this`objects, this`locks
      ensures Valid() && Idle(machine, p) && locks == old(locks)
      ensures swept == Swept(calls, b in locks)
      ensures arch == if swept then old(arch)[b := old(arch[b]).(path := None)] else old(arch)
      ensures objects == if Deletes(calls, b in locks)
                         then old(objects) - {old(arch[b]).path.value} else old(objects)
    {
      var taken := TryLock(p, b, true, calls.lock);
      if !taken { return false; }
      swept := SweepLocked(p, b, calls);
      Release(p, b);
      assert locks == old(locks);
    }

    /** One round of sweepEvictedObjects. */
    method SweepOne(p: Pid, b: BuildId, calls: SweepCalls) returns (swept: bool)
      requires Valid() && Idle(machine, p) && Leftover(b)
      modifies this`machine, this`arch, this`objects, this`locks, this`stats
      ensures Valid() && Idle(machine, p) && locks == old(locks)
      ensures swept == Swept(calls, b in locks)
      ensures swept <==> calls.lock && b !in locks && calls.read && calls.delete && calls.clear
      ensures arch == if swept then old(arch)[b := old(arch[b]).(path := None)] else old(arch)
      ensures objects == if calls.lock && b !in locks && calls.read && calls.delete
                         then old(objects) - {old(arch[b]).path.value} else old(objects)
      ensures stats == if swept then old(stats).(sweptObjects := old(stats).sweptObjects + 1) else old(stats)
    {
      BeginSweep(p, b);
      swept := SweepListed(p, b, calls);
      if swept { stats := stats.(sweptObjects := stats.sweptObjects + 1); }
    }

    // ---------- one pass ----------

    /** The rows ListEvictableArchiveFiles selects. */
    predicate Listable(row: ArchiveRow, b: BuildId, now: nat)
      reads this`status, this`heads, this`accessed, this`sizes
    {
      && row.state == Uploaded
      && b in status && status[b] == Completed
      && b in accessed && b in sizes && accessed[b] + ttl < now
      && Some(b) !in heads.Values
    }

    function Now(): Snapshot
      reads this
    {
      Snapshot(arch, objects, stats)
    }

    /** The builds whose rows ListEvictableArchiveFiles can select. */
    function Selectable(rows: map<BuildId, ArchiveRow>, now: nat): set<BuildId>
      reads this`status, this`heads, this`accessed, this`sizes
    {
      set b | b in rows && Listable(rows[b], b, now)
    }

    /** The builds whose archives may be evicted. */
    function Ripe(rows: map<BuildId, ArchiveRow>, now: nat): set<BuildId>
      reads this`status, this`files, this`lost, this`heads, this`accessed
    {
      set b | b in rows && Evictable(rows[b], b, now)
    }

    /** The loop of runArchiveGCOnce over its candidates. */
    method EvictAll(p: Pid, candidates: seq<BuildId>, now: nat,
                    calls: BuildId -> EvictCalls) returns (outcomes: seq<Outcome>)
      requires Valid() && Idle(machine, p) && Distinct(candidates)
      requires forall i | 0 <= i < |candidates| :: candidates[i] in Selectable(arch, now)
      modifies this`machine, this`arch, this`objects, this`locks, this`stats
      ensures Valid() && Idle(machine, p) && locks == old(locks)
      ensures |outcomes| == |candidates| && Pass(old(Now()), Now(), candidates, outcomes, sizes)
      ensures DecidedBy(old(Ripe(arch, now)), locks, candidates, calls, outcomes)
    {
      outcomes := [];
      var i := 0;
      ghost var before, selectable, ripe := Now(), Selectable(arch, now), Ripe(arch, now);
      while i < |candidates|
        invariant i <= |candidates| && |outcomes| == i
        invariant Valid() && Idle(machine, p) && locks == old(locks)
        invariant Selectable(before.arch, now) == selectable && Ripe(before.arch, now) == ripe
        invariant Pass(before, Now(), candidates[..i], outcomes, sizes)
        invariant DecidedBy(ripe, locks, candidates[..i], calls, outcomes)
      {
        outcomes := EvictNext(p, candidates, now, calls, before, selectable, ripe, outcomes);
        i := i + 1;
      }
      assert candidates[..i] == candidates;
    }

    lemma NextIsUntouched(before: Snapshot, candidates: seq<BuildId>, outcomes: seq<Outcome>, sizes: map<BuildId, nat>)
      requires |outcomes| < |candidates| && Distinct(candidates) && candidates[|outcomes|] in before.arch
      requires Pass(before, Now(), candidates[..|outcomes|], outcomes, sizes)
      ensures candidates[|outcomes|] !in candidates[..|outcomes|]
      ensures candidates[|outcomes|] in arch && arch[candidates[|outcomes|]] == before.arch[candidates[|outcomes|]]
    {
    }

    /** One candidate is evicted, whose row is still what it was. */
    method EvictCandidate(p: Pid, b: BuildId, now: nat, calls: EvictCalls, ghost before: Snapshot,
                          ghost selectable: set<BuildId>, ghost ripe: set<BuildId>) returns (outcome: Outcome)
      requires Valid() && Idle(machine, p) && b in before.arch && b in arch && arch[b] == before.arch[b]
      requires selectable == Selectable(before.arch, now) && ripe == Ripe(before.arch, now) && b in selectable
      modifies this`machine, this`arch, this`objects, this`locks, this`stats
      ensures Valid() && Idle(machine, p) && locks == old(locks) && b in sizes
      ensures outcome == OutcomeOf(calls, b in locks, b in ripe)
      ensures arch == RowsAfter(old(arch), b, old(arch[b]), outcome)
      ensures objects == ObjectsAfter(old(objects), old(arch[b]), outcome)
      ensures stats == Counted(old(stats), outcome, sizes[b])
      ensures Selectable(before.arch, now) == selectable && Ripe(before.arch, now) == ripe
    {
      outcome := EvictArchive(p, b, now, calls);
    }

    /** The next candidate is evicted. */
    method EvictNext(p: Pid, candidates: seq<BuildId>, now: nat, calls: BuildId -> EvictCalls,
                     ghost before: Snapshot, ghost selectable: set<BuildId>, ghost ripe: set<BuildId>,
                     outcomes: seq<Outcome>)
      returns (grown: seq<Outcome>)
      requires Valid() && Idle(machine, p) && |outcomes| < |candidates| && Distinct(candidates)
      requires selectable == Selectable(before.arch, now) && ripe == Ripe(before.arch, now)
      requires candidates[|outcomes|] in selectable
      requires Pass(before, Now(), candidates[..|outcomes|], outcomes, sizes)
      requires DecidedBy(ripe, locks, candidates[..|outcomes|], calls, outcomes)
      modifies this`machine, this`arch, this`objects, this`locks, this`stats
      ensures Valid() && Idle(machine, p) && locks == old(locks)
      ensures |grown| == |outcomes| + 1 && Pass(before, Now(), candidates[..|grown|], grown, sizes)
      ensures DecidedBy(ripe, locks, candidates[..|grown|], calls, grown)
      ensures Selectable(before.arch, now) == selectable && Ripe(before.arch, now) == ripe
    {
      ghost var mid := Now();
      var i := |outcomes|;
      NextIsUntouched(before, candidates, outcomes, sizes);
      var outcome := EvictCandidate(p, candidates[i], now, calls(candidates[i]), before, selectable, ripe);
      grown := outcomes + [outcome];
      DecidedGrows(ripe, locks, candidates, calls, outcomes, outcome);
      PassGrows(before, mid, Now(), candidates, outcomes, i, outcome, sizes);
    }

    /** The loop of sweepEvictedObjects. */
    method SweepAll(p: Pid, leftovers: seq<BuildId>, calls: BuildId -> SweepCalls)
      requires Valid() && Idle(machine, p) && Distinct(leftovers)
      requires forall i | 0 <= i < |leftovers| :: Leftover(leftovers[i])
      modifies this`machine, this`arch, this`objects, this`locks, this`stats
      ensures Valid() && Idle(machine, p) && locks == old(locks)
      ensures SweepPass(old(Now()), Now(), locks, leftovers, calls)
    {
      var i := 0;
      ghost var before := Now();
      assert SweepPass(before, Now(), locks, [], calls);
      while i < |leftovers|
        invariant i <= |leftovers| && Valid() && Idle(machine, p) && locks == old(locks)
        invariant SweepPass(before, Now(), locks, leftovers[..i], calls)
      {
        assert leftovers[i] !in leftovers[..i];
        SweepNext(p, leftovers, i, calls, before);
        i := i + 1;
      }
      assert leftovers[..i] == leftovers;
    }

    method SweepNext(p: Pid, leftovers: seq<BuildId>, i: nat, calls: BuildId -> SweepCalls, ghost before: Snapshot)
      requires Valid() && Idle(machine, p) && i < |leftovers| && leftovers[i] !in leftovers[..i]
      requires leftovers[i] in before.arch && before.arch[leftovers[i]].state == Evicted
      requires before.arch[leftovers[i]].path.Some?
      requires SweepPass(before, Now(), locks, leftovers[..i], calls)
      modifies this`machine, this`arch, this`objects, this`locks, this`stats
      ensures Valid() && Idle(machine, p) && locks == old(locks)
      ensures SweepPass(before, Now(), locks, leftovers[..i + 1], calls)
    {
      ghost var mid := Now();
      var b := leftovers[i];
      assert leftovers[..i + 1] == leftovers[..i] + [b];
      var swept := SweepOne(p, b, calls(b));
      SweepPassGrows(before, mid, Now(), locks, leftovers[..i], calls, b);
    }

    /** The least recently used of some rows. */
    method Oldest(rows: set<BuildId>) returns (b: BuildId)
      requires rows != {} && rows <= accessed.Keys
      ensures b in rows && forall x | x in rows :: accessed[b] <= accessed[x]
    {
      b :| b in rows;
      var rest := rows - {b};
      while rest != {}
        invariant rest <= rows && b in rows
        invariant forall x | x in rows && x !in rest :: accessed[b] <= accessed[x]
        decreases |rest|
      {
        var x :| x in rest;
        if accessed[x] < accessed[b] { b := x; }
        rest := rest - {x};
      }
    }

    /** The archive of b was not used after that of c. */
    predicate NotLater(b: BuildId, c: BuildId)
      reads this`accessed
    {
      b in accessed && c in accessed && accessed[b] <= accessed[c]
    }

    /** ListEvictableArchiveFiles: the least recently used rows first, up to the limit. */
    method ListEvictable(now: nat, limit: nat) returns (r: seq<BuildId>)
      ensures Distinct(r) && |r| <= limit
      ensures forall i | 0 <= i < |r| :: r[i] in Selectable(arch, now)
      ensures forall i | 0 <= i < |r| :: r[i] in accessed
      ensures forall i, j | 0 <= i < j < |r| :: NotLater(r[i], r[j]) && accessed[r[i]] <= accessed[r[j]]
      ensures forall b | b in Selectable(arch, now) && b !in r ::
                |r| == limit && forall i | 0 <= i < |r| :: NotLater(r[i], b)
    {
      var all := Selectable(arch, now);
      var rest := all;
      r := [];
      while rest != {} && |r| < limit
        invariant Distinct(r) && |r| <= limit && rest <= all <= accessed.Keys
        invariant forall i | 0 <= i < |r| :: r[i] in all && r[i] !in rest
        invariant forall b | b in all :: b in rest || b in r
        invariant forall i, j | 0 <= i < j < |r| :: NotLater(r[i], r[j])
        invariant forall i, b | 0 <= i < |r| && b in rest :: NotLater(r[i], b)
        decreases |rest|
      {
        var b := Oldest(rest);
        r, rest := r + [b], rest - {b};
      }
    }

    /** ListEvictedArchiveFilesWithStorage: evicted rows that still have a path. */
    method ListLeftovers(limit: nat) returns (r: seq<BuildId>)
      ensures Distinct(r) && |r| <= limit && |r| <= |arch|
      ensures forall i | 0 <= i < |r| :: Leftover(r[i])
      ensures |r| < limit ==> forall b | b in arch && Leftover(b) :: b in r
      ensures |r| < limit ==> forall b | b in arch && arch[b].state == Evicted && arch[b].path.Some? :: b in r
    {
      var rest := set b | b in arch && Leftover(b);
      SubsetIsSmaller(rest, arch.Keys);
      r := [];
      while rest != {} && |r| < limit
        invariant Distinct(r) && |r| <= limit && |r| + |rest| <= |arch|
        invariant forall i | 0 <= i < |r| :: Leftover(r[i]) && r[i] !in rest
        invariant forall b | b in rest :: b in arch && Leftover(b)
        invariant forall b | b in arch && Leftover(b) :: b in rest || b in r
        decreases |rest|
      {
        var b :| b in rest;
        r, rest := r + [b], rest - {b};
      }
    }

    /** The candidates of a pass. */
    method Choose(now: nat, limit: nat, rounds: nat) returns (listed: nat, candidates: seq<BuildId>)
      ensures Chosen(Selectable(arch, now), accessed, candidates, limit, rounds)
      ensures listed <= limit && |candidates| == if rounds < listed then rounds else listed
    {
      var all := ListEvictable(now, limit);
      listed, candidates := |all|, if rounds < |all| then all[..rounds] else all;
      forall b | b in Selectable(arch, now) && b !in candidates
        ensures |candidates| == limit || |candidates| == rounds
        ensures forall i | 0 <= i < |candidates| :: NotLater(candidates[i], b)
      {
        if b in all { var j :| 0 <= j < |all| && all[j] == b; assert |candidates| <= j; }
      }
    }

    /** The evicting half of a pass; only the first rounds candidates are reached. */
    method EvictPass(p: Pid, now: nat, limit: nat, rounds: nat, calls: BuildId -> EvictCalls)
      returns (listed: nat, candidates: seq<BuildId>, outcomes: seq<Outcome>)
      requires Valid() && Idle(machine, p)
      modifies this`machine, this`arch, this`objects, this`locks, this`stats
      ensures Valid() && Idle(machine, p) && locks == old(locks)
      ensures listed <= limit && |outcomes| == |candidates| == if rounds < listed then rounds else listed
      ensures Chosen(old(Selectable(arch, now)), accessed, candidates, limit, rounds)
      ensures DecidedBy(old(Ripe(arch, now)), locks, candidates, calls, outcomes)
      ensures Pass(old(Now()), Now(), candidates, outcomes, sizes)
    {
      listed, candidates := Choose(now, limit, rounds);
      outcomes := EvictAll(p, candidates, now, calls);
    }

    /** The leftovers a sweep gets to: rows whose delete was interrupted, and all of
        them unless the limit or the rounds are used up. */
    predicate Remaining(leftovers: seq<BuildId>, rounds: nat)
      reads this
    {
      && Distinct(leftovers) && |leftovers| <= 1000 && |leftovers| <= rounds
      && (forall i | 0 <= i < |leftovers| :: Leftover(leftovers[i]))
      && (forall b | b in arch && Leftover(b) && b !in leftovers ::
            |leftovers| == 1000 || |leftovers| == rounds)
    }

    /** The sweeping half of a pass. */
    method SweepPassOver(p: Pid, rounds: nat, calls: BuildId -> SweepCalls) returns (leftovers: seq<BuildId>)
      requires Valid() && Idle(machine, p)
      modifies this`machine, this`arch, this`objects, this`locks, this`stats
      ensures Valid() && Idle(machine, p) && locks == old(locks)
      ensures old(Remaining(leftovers, rounds))
      ensures |arch| < 1000 && |arch| <= rounds ==> old(forall b | b in arch && Leftover(b) :: b in leftovers)
      ensures SweepPass(old(Now()), Now(), locks, leftovers, calls) && Cleared(old(Now()), Now())
    {
      var all := ListLeftovers(SWEEP_LIMIT);
      leftovers := if rounds < |all| then all[..rounds] else all;
      ghost var before := Now();
      SweepAll(p, leftovers, calls);
      SweepClears(before, Now(), locks, leftovers, calls);
    }

    /** The sweep has the rounds it needs after so many evictions, and succeeds in each. */
    ghost predicate Undisturbed(evictions: nat, rounds: nat, calls: BuildId -> SweepCalls)
      reads this`arch, this`locks
    {
      |arch| < 1000 && evictions + |arch| <= rounds && forall b :: Swept(calls(b), b in locks)
    }

    /** What runArchiveGCOnce does after its evictions, listed of them. */
    method FinishPass(p: Pid, listed: nat, rounds: nat, sweepListOk: bool, calls: BuildId -> SweepCalls)
      returns (leftovers: seq<BuildId>)
      requires Valid() && Idle(machine, p)
      modifies this`machine, this`arch, this`objects, this`locks, this`stats
      ensures Valid() && Idle(machine, p) && locks == old(locks) && Cleared(old(Now()), Now())
      ensures sweepListOk ==> SweepPass(old(Now()), Now(), locks, leftovers, calls)
      ensures sweepListOk ==> old(Remaining(leftovers, if listed <= rounds then rounds - listed else 0))
      ensures sweepListOk && Undisturbed(listed, rounds, calls) ==> forall b | b in arch :: !Leftover(b)
      ensures !sweepListOk ==> Now() == old(Now()).(stats := stats) && stats.errors <= old(stats).errors + 1
    {
      leftovers := [];
      if rounds < listed { return; }
      if !sweepListOk {
        stats := stats.(errors := stats.errors + 1);
        return;
      }
      leftovers := SweepPassOver(p, rounds - listed, calls);
    }

    /** A pass whose list of candidates could be read; mid is the server after the
        evictions. */
    method EvictAndSweep(p: Pid, now: nat, limit: nat, rounds: nat, sweepListOk: bool,
                         evictCalls: BuildId -> EvictCalls, sweepCalls: BuildId -> SweepCalls)
      returns (candidates: seq<BuildId>, outcomes: seq<Outcome>, leftovers: seq<BuildId>, ghost mid: Snapshot)
      requires Valid() && Idle(machine, p)
      modifies this`machine, this`arch, this`objects, this`locks, this`stats
      ensures Valid() && Idle(machine, p) && locks == old(locks) && |outcomes| == |candidates|
      ensures Chosen(old(Selectable(arch, now)), accessed, candidates, limit, rounds)
      ensures DecidedBy(old(Ripe(arch, now)), locks, candidates, evictCalls, outcomes)
      ensures Pass(old(Now()), mid, candidates, outcomes, sizes) && Cleared(mid, Now())
      ensures sweepListOk ==> SweepPass(mid, Now(), locks, leftovers, sweepCalls)
      ensures sweepListOk && Undisturbed(limit, rounds, sweepCalls) ==> forall b | b in arch :: !Leftover(b)
    {
      var listed: nat;
      listed, candidates, outcomes := EvictPass(p, now, limit, rounds, evictCalls);
      mid := Now();
      leftovers := FinishPass(p, listed, rounds, sweepListOk, sweepCalls);
    }

    // The rows in their own terms.

    /** Uploaded archives of completed builds that head no channel, last used more than
        the TTL ago. */
    ghost function Idlers(rows: map<BuildId, ArchiveRow>, now: nat): set<BuildId>
      reads this`status, this`heads, this`accessed
    {
      set b | b in rows && rows[b].state == Uploaded && b in status && status[b] == Completed
              && Some(b) !in heads.Values && b in accessed && accessed[b] + ttl < now
    }

    /** Those of them that have a path and a known size, patch and signature stored and
        their lock free. */
    ghost function Due(rows: map<BuildId, ArchiveRow>, now: nat): set<BuildId>
      reads this`status, this`files, this`lost, this`heads, this`accessed, this`sizes, this`locks
    {
      set b | b in rows && rows[b].state == Uploaded && rows[b].path.Some? && b in status && status[b] == Completed
              && Some(b) !in heads.Values && b in accessed && accessed[b] + ttl < now && b in sizes
              && b in files && files[b].patch.Ready? && b !in lost && files[b].signature.Ready? && b !in locks
    }

    /** Uploaded archives of heads, of builds that are not completed, without their patch
        object, or used later. */
    ghost function InUse(rows: map<BuildId, ArchiveRow>, now: nat): set<BuildId>
      reads this`status, this`lost, this`heads, this`accessed
    {
      set b | b in rows && rows[b].state == Uploaded
              && (Some(b) in heads.Values || (b in status && status[b] != Completed) || b in lost
                  || (b in accessed && accessed[b] + ttl > now))
    }

    lemma RowsInTheirTerms(rows: map<BuildId, ArchiveRow>, now: nat)
      ensures Selectable(rows, now) <= Idlers(rows, now)
      ensures Due(rows, now) <= Selectable(rows, now) * Ripe(rows, now) - locks.Keys
      ensures InUse(rows, now) !! Ripe(rows, now)
    {
    }

    /** runArchiveGCOnce; rounds is how many candidates and leftovers it gets to
        before it is cancelled. Archives that can be freed are, the least recently used
        ones first; none in use is touched; the counters add up; and interrupted deletes
        are finished. */
    method RunArchiveGCOnce(p: Pid, now: nat, limit: nat, rounds: nat, listOk: bool, sweepListOk: bool,
                            evictCalls: BuildId -> EvictCalls, sweepCalls: BuildId -> SweepCalls)
      returns (candidates: seq<BuildId>, outcomes: seq<Outcome>, leftovers: seq<BuildId>, ghost mid: Snapshot)
      requires Valid() && Idle(machine, p)
      modifies this`machine, this`arch, this`objects, this`locks, this`stats
      ensures Valid() && Idle(machine, p) && locks == old(locks) && |outcomes| == |candidates|
      ensures !listOk ==> Now() == old(Now()).(stats := old(stats).(errors := old(stats).errors + 1))
      ensures listOk ==>
                && Chosen(old(Selectable(arch, now)), accessed, candidates, limit, rounds)
                && DecidedBy(old(Ripe(arch, now)), locks, candidates, evictCalls, outcomes)
                && Pass(old(Now()), mid, candidates, outcomes, sizes)
                && (sweepListOk ==> SweepPass(mid, Now(), locks, leftovers, sweepCalls))
                && Frees(old(Now()), Now(), old(Selectable(arch, now) * Ripe(arch, now)) - locks.Keys,
                         candidates, limit, rounds, evictCalls)
      ensures Spares(old(arch), arch, old(Ripe(arch, now)))
      ensures listOk ==> Frees(old(Now()), Now(), old(Due(arch, now)), candidates, limit, rounds, evictCalls)
      ensures forall b | b in candidates :: b in old(Idlers(arch, now))
      ensures forall b | b in old(InUse(arch, now)) :: b in arch && arch[b] == old(arch)[b]
      ensures listOk && sweepListOk && Undisturbed(limit, rounds, sweepCalls) ==>
                forall b | b in arch && arch[b].state == Evicted :: arch[b].path.None?
    {
      ghost var before, selectable, ripe := Now(), Selectable(arch, now), Ripe(arch, now);
      RowsInTheirTerms(arch, now);
      if listOk {
        candidates, outcomes, leftovers, mid :=
          EvictAndSweep(p, now, limit, rounds, sweepListOk, evictCalls, sweepCalls);
        PassFrees(before, mid, Now(), selectable, ripe, accessed, locks, candidates, outcomes, limit, rounds,
                  evictCalls, sizes);
        PassSpares(before, mid, Now(), ripe, locks, candidates, outcomes, evictCalls, sizes);
      } else {
        candidates, outcomes, leftovers, mid := [], [], [], Now();
        stats := stats.(errors := stats.errors + 1);
      }
    }
  }

  const SWEEP_LIMIT := 1000

  /** The candidates a pass gets to: selectable rows, and a selectable row is passed
      over only when the limit or the rounds are used up by rows that have been idle
      at least as long. */
  predicate Chosen(selectable: set<BuildId>, accessed: map<BuildId, nat>, candidates: seq<BuildId>, limit: nat,
                   rounds: nat)
  {
    && Distinct(candidates) && |candidates| <= limit && |candidates| <= rounds
    && (forall i | 0 <= i < |candidates| :: candidates[i] in selectable && candidates[i] in accessed)
    && (forall b | b in selectable && b !in candidates ::
          (|candidates| == limit || |candidates| == rounds) && b in accessed
          && forall i | 0 <= i < |candidates| :: accessed[candidates[i]] <= accessed[b])
  }

  lemma {:induction false} SubsetIsSmaller(a: set<BuildId>, b: set<BuildId>)
    requires a <= b
    ensures |a| <= |b|
  {
    if x :| x in a { SubsetIsSmaller(a - {x}, b - {x}); }
  }

  predicate Swept(calls: SweepCalls, busy: bool) {
    Deletes(calls, busy) && calls.clear
  }

  predicate Deletes(calls: SweepCalls, busy: bool) {
    calls.lock && !busy && calls.read && calls.delete
  }

  function DeletedKeys(arch: map<BuildId, ArchiveRow>, held: map<BuildId, Pid>, leftovers: seq<BuildId>,
                       calls: BuildId -> SweepCalls): set<Key> {
    set b | b in leftovers && b in arch && arch[b].path.Some? && Deletes(calls(b), b in held)
      :: arch[b].path.value
  }

  function SweptCount(held: map<BuildId, Pid>, leftovers: seq<BuildId>, calls: BuildId -> SweepCalls): nat
    decreases |leftovers|
  {
    if leftovers == [] then 0
    else
      var n := |leftovers| - 1;
      SweptCount(held, leftovers[..n], calls) + if Swept(calls(leftovers[n]), leftovers[n] in held) then 1 else 0
  }

  /** What a sweep has done to the rows, objects and counters. */
  ghost predicate SweepPass(before: Snapshot, after: Snapshot, held: map<BuildId, Pid>, leftovers: seq<BuildId>,
                            calls: BuildId -> SweepCalls)
  {
    && after.arch.Keys == before.arch.Keys
    && (forall b | b in before.arch ::
          after.arch[b] == if b in leftovers && Swept(calls(b),
                                                      b in held) then before.arch[b].(path := None) else before.arch[b])
    && after.objects == before.objects - DeletedKeys(before.arch, held, leftovers, calls)
    && after.stats == before.stats.(sweptObjects := before.stats.sweptObjects + SweptCount(held, leftovers, calls))
  }

  lemma SweepPassGrows(before: Snapshot, mid: Snapshot, after: Snapshot, held: map<BuildId, Pid>,
                       leftovers: seq<BuildId>,
                       calls: BuildId -> SweepCalls, b: BuildId)
    requires SweepPass(before, mid, held, leftovers, calls) && b !in leftovers
    requires b in before.arch && before.arch[b].path.Some?
    requires after.arch == if Swept(calls(b), b in held) then mid.arch[b := mid.arch[b].(path := None)] else mid.arch
    requires after.objects == if Deletes(calls(b), b in held)
                              then mid.objects - {before.arch[b].path.value} else mid.objects
    requires after.stats == if Swept(calls(b), b in held) then mid.stats.(sweptObjects := mid.stats.sweptObjects + 1)
                            else mid.stats
    ensures SweepPass(before, after, held, leftovers + [b], calls)
  {
    DeletedKeysGrow(before.arch, held, leftovers, calls, b);
  }

  lemma DeletedKeysGrow(arch: map<BuildId, ArchiveRow>, held: map<BuildId, Pid>, leftovers: seq<BuildId>,
                        calls: BuildId -> SweepCalls, b: BuildId)
    requires b in arch && arch[b].path.Some?
    ensures DeletedKeys(arch, held, leftovers + [b], calls)
              == DeletedKeys(arch, held, leftovers, calls)
                 + if Deletes(calls(b), b in held) then {arch[b].path.value} else {}
    ensures SweptCount(held, leftovers + [b], calls)
              == SweptCount(held, leftovers, calls) + if Swept(calls(b), b in held) then 1 else 0
  {
    assert (leftovers + [b])[..|leftovers|] == leftovers;
    var before, after := DeletedKeys(arch, held, leftovers, calls), DeletedKeys(arch, held, leftovers + [b], calls);
    forall key | key in before ensures key in after {
      var x :| x in leftovers && x in arch && arch[x].path == Some(key) && Deletes(calls(x), x in held);
      assert x in leftovers + [b];
    }
  }

  // ---------- a pass over its candidates ----------

  /** Each outcome is the one its calls, its lock and its archive call for. */
  predicate DecidedBy(ripe: set<BuildId>, held: map<BuildId, Pid>, candidates: seq<BuildId>,
                      calls: BuildId -> EvictCalls, outcomes: seq<Outcome>)
    requires |outcomes| == |candidates|
  {
    forall i | 0 <= i < |outcomes| ::
      outcomes[i] == OutcomeOf(calls(candidates[i]), candidates[i] in held, candidates[i] in ripe)
  }

  lemma DecidedGrows(ripe: set<BuildId>, held: map<BuildId, Pid>, candidates: seq<BuildId>,
                     calls: BuildId -> EvictCalls, outcomes: seq<Outcome>, outcome: Outcome)
    requires |outcomes| < |candidates| && DecidedBy(ripe, held, candidates[..|outcomes|], calls, outcomes)
    requires var b := candidates[|outcomes|]; outcome == OutcomeOf(calls(b), b in held, b in ripe)
    ensures DecidedBy(ripe, held, candidates[..|outcomes| + 1], calls, outcomes + [outcome])
  {
  }

  /** The archives of these builds are freed when the calls of their evictions succeed,
      unless the pass does not get to them. */
  ghost predicate Frees(before: Snapshot, after: Snapshot, builds: set<BuildId>, candidates: seq<BuildId>, limit: nat,
                        rounds: nat, calls: BuildId -> EvictCalls)
  {
    forall b | b in builds && Succeeds(calls(b))
               && (b in candidates || (|candidates| < limit && |candidates| < rounds)) ::
      && b in before.arch && before.arch[b].path.Some? && before.arch[b].path.value !in after.objects
      && b in after.arch && after.arch[b].state == Evicted
  }

  lemma PassFrees(before: Snapshot, mid: Snapshot, after: Snapshot, selectable: set<BuildId>, ripe: set<BuildId>,
                  accessed: map<BuildId, nat>, held: map<BuildId, Pid>, candidates: seq<BuildId>,
                  outcomes: seq<Outcome>, limit: nat, rounds: nat, calls: BuildId -> EvictCalls,
                  sizes: map<BuildId, nat>)
    requires |outcomes| == |candidates| && Chosen(selectable, accessed, candidates, limit, rounds)
    requires Pass(before, mid, candidates, outcomes, sizes) && DecidedBy(ripe, held, candidates, calls, outcomes)
    requires Cleared(mid, after)
    requires forall b | b in ripe :: b in before.arch && before.arch[b].path.Some?
    ensures Frees(before, after, selectable * ripe - held.Keys, candidates, limit, rounds, calls)
  {
    forall b | b in selectable * ripe - held.Keys && Succeeds(calls(b))
               && (b in candidates || (|candidates| < limit && |candidates| < rounds))
      ensures before.arch[b].path.value !in after.objects && b in after.arch && after.arch[b].state == Evicted
    {
      var i :| 0 <= i < |candidates| && candidates[i] == b;
      assert outcomes[i] == Freed(calls(b).clear);
      assert before.arch[b].path.value in FreedKeys(before.arch, candidates, outcomes);
    }
  }

  /** Rows of archives in use, or not safely rebuildable, are as they were. */
  predicate Spares(before: map<BuildId, ArchiveRow>, after: map<BuildId, ArchiveRow>, ripe: set<BuildId>) {
    forall b | b in before && before[b].state == Uploaded && b !in ripe :: b in after && after[b] == before[b]
  }

  lemma PassSpares(before: Snapshot, mid: Snapshot, after: Snapshot, ripe: set<BuildId>, held: map<BuildId, Pid>,
                   candidates: seq<BuildId>, outcomes: seq<Outcome>, calls: BuildId -> EvictCalls,
                   sizes: map<BuildId, nat>)
    requires |outcomes| == |candidates| && Pass(before, mid, candidates, outcomes, sizes)
    requires DecidedBy(ripe, held, candidates, calls, outcomes) && Cleared(mid, after)
    ensures Spares(before.arch, after.arch, ripe)
  {
    forall b | b in before.arch && before.arch[b].state == Uploaded && b !in ripe
      ensures b in after.arch && after.arch[b] == before.arch[b]
    {
      if b in candidates {
        var i :| 0 <= i < |candidates| && candidates[i] == b;
        assert RowAfter(before.arch[b], outcomes[i]) == before.arch[b];
      }
    }
  }

  predicate Distinct(candidates: seq<BuildId>) {
    forall i, j | 0 <= i < j < |candidates| :: candidates[i] != candidates[j]
  }

  /** What a sweep can change: paths of evicted rows are cleared, and objects go. */
  ghost predicate Cleared(before: Snapshot, after: Snapshot) {
    && after.arch.Keys == before.arch.Keys && after.objects.Keys <= before.objects.Keys
    && (forall b | b in before.arch ::
          after.arch[b] == before.arch[b] || (before.arch[b].state == Evicted
                                              && after.arch[b] == before.arch[b].(path := None)))
  }

  lemma SweepClears(before: Snapshot, after: Snapshot, held: map<BuildId, Pid>, leftovers: seq<BuildId>,
                    calls: BuildId -> SweepCalls)
    requires SweepPass(before, after, held, leftovers, calls)
    requires forall b | b in leftovers && b in before.arch :: before.arch[b].state == Evicted
    ensures Cleared(before, after)
  {
  }

  datatype Snapshot = Snapshot(arch: map<BuildId, ArchiveRow>, objects: map<Key, Archive>, stats: Stats)

  /** The rows of the candidates are as their outcomes say, no other row changed,
      exactly the freed objects are gone and the counters add up. */
  ghost predicate Pass(before: Snapshot, after: Snapshot, candidates: seq<BuildId>, outcomes: seq<Outcome>,
                       sizes: map<BuildId, nat>)
    requires |candidates| == |outcomes|
  {
    && RowsDecided(before.arch, after.arch, candidates, outcomes)
    && after.objects == before.objects - FreedKeys(before.arch, candidates, outcomes)
    && after.stats == CountedAll(before.stats, candidates, outcomes, sizes)
  }

  ghost predicate RowsDecided(before: map<BuildId, ArchiveRow>, after: map<BuildId, ArchiveRow>,
                              candidates: seq<BuildId>, outcomes: seq<Outcome>)
    requires |candidates| == |outcomes|
  {
    && after.Keys == before.Keys
    && (forall b | b in before && b !in candidates :: after[b] == before[b])
    && (forall i | 0 <= i < |candidates| :: candidates[i] in before &&
          after[candidates[i]] == RowAfter(before[candidates[i]], outcomes[i]))
  }

  function FreedKeys(arch: map<BuildId, ArchiveRow>, candidates: seq<BuildId>, outcomes: seq<Outcome>): set<Key>
    requires |candidates| == |outcomes|
  {
    set i | 0 <= i < |outcomes| && outcomes[i].Freed? && candidates[i] in arch && arch[candidates[i]].path.Some?
      :: arch[candidates[i]].path.value
  }

  function CountedAll(stats: Stats, candidates: seq<BuildId>, outcomes: seq<Outcome>, sizes: map<BuildId, nat>): Stats
    requires |candidates| == |outcomes|
    decreases |outcomes|
  {
    if outcomes == [] then stats
    else
      var n := |outcomes| - 1;
      Counted(CountedAll(stats, candidates[..n], outcomes[..n], sizes), outcomes[n],
              if candidates[n] in sizes then sizes[candidates[n]] else 0)
  }

  lemma FreedKeysGrow(arch: map<BuildId, ArchiveRow>, candidates: seq<BuildId>, outcomes: seq<Outcome>,
                      outcome: Outcome, b: BuildId)
    requires |outcomes| == |candidates| && b in arch
    ensures FreedKeys(arch, candidates + [b], outcomes + [outcome])
              == FreedKeys(arch, candidates, outcomes)
                 + if outcome.Freed? && arch[b].path.Some? then {arch[b].path.value} else {}
  {
    var i, grown, longer := |candidates|, outcomes + [outcome], candidates + [b];
    var before, after := FreedKeys(arch, candidates, outcomes), FreedKeys(arch, longer, grown);
    forall key | key in before ensures key in after {
      var j :| 0 <= j < i && outcomes[j].Freed? && candidates[j] in arch && arch[candidates[j]].path == Some(key);
      assert grown[j] == outcomes[j] && longer[j] == candidates[j];
    }
    if outcome.Freed? && arch[b].path.Some? { assert grown[i] == outcome && longer[i] == b; }
    forall key | key in after ensures key in before || (outcome.Freed? && arch[b].path == Some(key)) {
      var j :| 0 <= j <= i && grown[j].Freed? && longer[j] in arch && arch[longer[j]].path == Some(key);
      if j < i { assert outcomes[j] == grown[j] && candidates[j] == longer[j]; }
    }
  }

  lemma RowsGrow(before: map<BuildId, ArchiveRow>, mid: map<BuildId, ArchiveRow>, candidates: seq<BuildId>,
                 outcomes: seq<Outcome>, outcome: Outcome, b: BuildId)
    requires |outcomes| == |candidates| && RowsDecided(before, mid, candidates, outcomes) && b in before
    requires b !in candidates
    ensures RowsDecided(before, RowsAfter(mid, b, mid[b], outcome), candidates + [b], outcomes + [outcome])
  {
  }

  lemma PassGrows(before: Snapshot, mid: Snapshot, after: Snapshot, candidates: seq<BuildId>, outcomes: seq<Outcome>,
                  i: nat, outcome: Outcome, sizes: map<BuildId, nat>)
    requires i < |candidates| && |outcomes| == i && candidates[i] !in candidates[..i]
    requires Pass(before, mid, candidates[..i], outcomes, sizes)
    requires candidates[i] in mid.arch && candidates[i] in sizes
    requires after.arch == RowsAfter(mid.arch, candidates[i], mid.arch[candidates[i]], outcome)
    requires after.objects == ObjectsAfter(mid.objects, mid.arch[candidates[i]], outcome)
    requires after.stats == Counted(mid.stats, outcome, sizes[candidates[i]])
    ensures Pass(before, after, candidates[..i + 1], outcomes + [outcome], sizes)
  {
    assert candidates[..i + 1] == candidates[..i] + [candidates[i]];
    RowsGrow(before.arch, mid.arch, candidates[..i], outcomes, outcome, candidates[i]);
    FreedKeysGrow(before.arch, candidates[..i], outcomes, outcome, candidates[i]);
    CountedGrows(before.stats, candidates[..i], outcomes, outcome, candidates[i], sizes);
  }

  lemma CountedGrows(stats: Stats, candidates: seq<BuildId>, outcomes: seq<Outcome>, outcome: Outcome, b: BuildId,
                     sizes: map<BuildId, nat>)
    requires |outcomes| == |candidates| && b in sizes
    ensures CountedAll(stats, candidates + [b], outcomes + [outcome], sizes)
              == Counted(CountedAll(stats, candidates, outcomes, sizes), outcome, sizes[b])
  {
    var n := |outcomes|;
    assert (candidates + [b])[..n] == candidates && (outcomes + [outcome])[..n] == outcomes;
  }

  // ---------- the counters ----------

  function CountOf(outcomes: seq<Outcome>, outcome: Outcome): nat
    decreases |outcomes|
  {
    if outcomes == [] then 0
    else CountOf(outcomes[..|outcomes| - 1], outcome) + if outcomes[|outcomes| - 1] == outcome then 1 else 0
  }

  /** The bytes of the archives whose objects were deleted. */
  function BytesFreed(candidates: seq<BuildId>, outcomes: seq<Outcome>, sizes: map<BuildId, nat>): nat
    requires |candidates| == |outcomes|
    decreases |outcomes|
  {
    if outcomes == [] then 0
    else
      var n := |outcomes| - 1;
      BytesFreed(candidates[..n], outcomes[..n], sizes)
        + if outcomes[n].Freed? && candidates[n] in sizes then sizes[candidates[n]] else 0
  }

  /** Every candidate is counted once, as evicted, skipped or failed; the errors
      exceed that by the freed archives whose path could not be cleared, and the
      bytes are those of the deleted objects. */
  lemma {:induction false} CountersAddUp(stats: Stats, candidates: seq<BuildId>, outcomes: seq<Outcome>,
                                         sizes: map<BuildId, nat>)
    requires |candidates| == |outcomes|
    ensures var s := CountedAll(stats, candidates, outcomes, sizes);
            && s.evicted - stats.evicted + s.skippedLock - stats.skippedLock + s.skippedGuard - stats.skippedGuard
                 + s.errors - stats.errors == |candidates| + CountOf(outcomes, Freed(false))
            && s.evicted - stats.evicted == CountOf(outcomes, Freed(true)) + CountOf(outcomes, Freed(false))
            && s.skippedLock - stats.skippedLock == CountOf(outcomes, Busy)
            && s.skippedGuard - stats.skippedGuard == CountOf(outcomes, Guarded)
            && s.bytesFreed - stats.bytesFreed == BytesFreed(candidates, outcomes, sizes)
            && s.sweptObjects == stats.sweptObjects
    decreases |outcomes|
  {
    if outcomes != [] {
      var n := |outcomes| - 1;
      CountersAddUp(stats, candidates[..n], outcomes[..n], sizes);
    }
  }

  /** An archive is freed exactly when it is evictable, its lock is free, and the
      calls up to the delete succeed; otherwise this is why not. */
  function OutcomeOf(calls: EvictCalls, busy: bool, evictable: bool): Outcome {
    if !calls.lock then LockError
    else if busy then Busy
    else OutcomeUnderLock(calls, evictable)
  }

  function OutcomeUnderLock(calls: EvictCalls, evictable: bool): Outcome {
    if !calls.read then ReadError
    else if !Answered(calls) || !evictable then Guarded
    else if !calls.mark then MarkError
    else if !calls.delete then DeleteError
    else Freed(calls.clear)
  }

  /** What the outcome of evictArchive means for the counters, the row and the object,
      call by call: ripe says that the row may be evicted, busy that its lock is taken. */
  lemma OutcomesMean(stats: Stats, arch: map<BuildId, ArchiveRow>, objects: map<Key, Archive>, b: BuildId,
                     calls: EvictCalls, busy: bool, ripe: bool, size: nat)
    requires b in arch && arch[b].path.Some?
    ensures var outcome, row, key := OutcomeOf(calls, busy, ripe), arch[b], arch[b].path.value;
            var after := Snapshot(RowsAfter(arch, b, row, outcome), ObjectsAfter(objects, row, outcome),
                                  Counted(stats, outcome, size));
            var failed := Snapshot(arch, objects, stats.(errors := stats.errors + 1));
            var guards := calls.head && calls.build && calls.patchRow && calls.patchObject && calls.signatureRow
                          && calls.signatureObject;
            && (!calls.lock ==> after == failed)
            && (calls.lock && busy ==> after == Snapshot(arch, objects, stats.(skippedLock := stats.skippedLock + 1)))
            && (calls.lock && !busy && !calls.read ==> after == failed)
            && (calls.lock && !busy && calls.read && !(ripe && guards) ==>
                  after == Snapshot(arch, objects, stats.(skippedGuard := stats.skippedGuard + 1)))
            && (calls.lock && !busy && calls.read && ripe && guards && !calls.mark ==> after == failed)
            && (calls.lock && !busy && calls.read && ripe && guards && calls.mark && !calls.delete ==>
                  after == failed.(arch := arch[b := ArchiveRow(Evicted, Some(key), true)]))
            && (calls.lock && !busy && calls.read && ripe && guards && calls.mark && calls.delete ==>
                  && after.arch == arch[b := ArchiveRow(Evicted, if calls.clear then None else Some(key), true)]
                  && after.objects == objects - {key}
                  && after.stats == stats.(evicted := stats.evicted + 1, bytesFreed := stats.bytesFreed + size,
                                           errors := stats.errors + if calls.clear then 0 else 1))
  {
  }

  function ObjectsAfter(objects: map<Key, Archive>, row: ArchiveRow, outcome: Outcome): map<Key, Archive> {
    if outcome.Freed? && row.path.Some? then objects - {row.path.value} else objects
  }

  /** No call of the eviction up to the delete fails. */
  predicate Succeeds(calls: EvictCalls) { calls.lock && Answered(calls) && calls.mark && calls.delete }

  predicate Answered(calls: EvictCalls) { calls.read && GuardsAnswered(calls) }

  predicate GuardsAnswered(calls: EvictCalls) {
    && calls.head && calls.build && calls.patchRow && calls.patchObject
    && calls.signatureRow && calls.signatureObject
  }

  function RowAfter(row: ArchiveRow, outcome: Outcome): ArchiveRow {
    match outcome
    case DeleteError => MarkedRow(row)
    case Freed(cleared) => ArchiveRow(Evicted, if cleared then None else row.path, true)
    case _ => row
  }

  function RowsAfter(arch: map<BuildId, ArchiveRow>, b: BuildId, row: ArchiveRow, outcome: Outcome): map<BuildId,
                     ArchiveRow> {
    if outcome.DeleteError? || outcome.Freed? then arch[b := RowAfter(row, outcome)] else arch
  }
}
