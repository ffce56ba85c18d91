/** Resumable uploads: a persisted size, a local session file and the stored
    object, changed by PUT requests that may be retried, cut short, or stopped by
    a failing call or a crash at any point. */
module UploadSession {
  import opened Records
  import opened Trees

  // ---------- int64 ----------

  const MAX_INT64: int := 0x7FFF_FFFF_FFFF_FFFF
  const TWO_TO_64: int := 0x1_0000_0000_0000_0000

  /** Two's complement wrap-around of an int64 result. */
  function Wrap(x: int): int {
    (x + MAX_INT64 + 1) % TWO_TO_64 - MAX_INT64 - 1
  }

  /** strconv.ParseInt on digits, its range error ignored. */
  function Parsed(digits: nat): int {
    if digits > MAX_INT64 then MAX_INT64 else digits
  }

  // ---------- requests and sessions ----------

  /** A Content-Range header, with its numbers as written. */
  datatype Range =
    | Query
    | Chunk(start: nat, end: nat, total: Option<nat>)
    | EmptyFinal(start: nat, length: nat)
    | Malformed

  /** Where a request stops early: a failing call, or a crash right after the
      call before it, which leaves the same state behind. */
  datatype Trouble =
    | NoTrouble
    | NoFolder
    | NoOpen
    | NoTruncate
    | NoSeek
    | CutShort(bytes: nat)
    | NoClose
    | NoUpdate
    | NoReopen
    | NoStore
    | NoMark

  datatype Request = Request(range: Range, body: Bytes, trouble: Trouble)

  datatype Session = Session(size: int, completed: bool, file: Option<Bytes>, stored: Option<Bytes>)

  datatype Reply = Done | Resume(size: int) | Refused(status: nat)

  // ---------- what a request asks for ----------

  datatype Verdict = AlreadyDone | Tell | Reject(status: nat) | Append(chunk: int, final: bool) | Finish

  function Judge(size: int, completed: bool, quota: int, range: Range): Verdict {
    if completed then AlreadyDone else
    match range
    case Query => Tell
    case Malformed => Reject(400)
    case EmptyFinal(start, total) =>
      if Parsed(total) > quota then Reject(413)
      else if Parsed(start) != size || Parsed(total) != size then Tell
      else Finish
    case Chunk(start, end, total) =>
      if Parsed(start) != size then Tell
      else if Parsed(end) < Parsed(start) then Reject(400)
      else
        var chunk := Wrap(Parsed(end) - Parsed(start) + 1);
        if Wrap(size + chunk) > quota then Reject(413)
        else if total.None? then Append(chunk, false)
        else if Parsed(total.value) > quota then Reject(413)
        else if Wrap(Parsed(start) + chunk) != Parsed(total.value) then Reject(400)
        else Append(chunk, true)
  }

  // ---------- the session file ----------

  function Zeros(n: nat): Bytes { seq(n, _ => 0) }

  function Truncated(file: Bytes, n: nat): Bytes {
    if n <= |file| then file[..n] else file + Zeros(n - |file|)
  }

  /** What io.Copy moves from a body limited to chunk bytes. */
  function Copied(body: Bytes, chunk: int): Bytes {
    if chunk <= 0 then [] else if |body| <= chunk then body else body[..chunk]
  }

  /** The session file after the request. */
  function FileAfter(s: Session, chunk: int, body: Bytes, trouble: Trouble): Option<Bytes>
    requires s.size >= 0
  {
    var there := if s.file.Some? then s.file.value else [];
    var kept, copied := Truncated(there, s.size), Copied(body, chunk);
    match trouble
    case NoFolder => s.file
    case NoOpen => s.file
    case NoTruncate => Some(there)
    case NoSeek => Some(kept)
    case CutShort(bytes) => Some(kept + if bytes <= |copied| then copied[..bytes] else copied)
    case _ => Some(kept + copied)
  }

  predicate Interrupts(trouble: Trouble) {
    || trouble.NoFolder? || trouble.NoOpen? || trouble.NoTruncate?
    || trouble.NoSeek? || trouble.CutShort? || trouble.NoClose?
  }

  /** The commit stores the first size bytes of the file, or nothing. */
  function Committed(s: Session, size: int, trouble: Trouble): Session {
    if trouble.NoReopen? || trouble.NoStore? || s.file.None? || !(0 <= size <= |s.file.value|) then s
    else if trouble.NoMark? then s.(stored := Some(s.file.value[..size]))
    else s.(stored := Some(s.file.value[..size]), size := size, completed := true)
  }

  /** The session after an accepted chunk. */
  function Chunked(s: Session, chunk: int, final: bool, body: Bytes, trouble: Trouble): Session
    requires s.size >= 0
  {
    var written := s.(file := FileAfter(s, chunk, body, trouble));
    if Interrupts(trouble) || |Copied(body, chunk)| != chunk then written
    else if final then Committed(written, Wrap(s.size + chunk), trouble)
    else if trouble.NoUpdate? then written
    else written.(size := Wrap(s.size + chunk))
  }

  function ChunkAnswer(s: Session, chunk: int, final: bool, body: Bytes, trouble: Trouble): Reply
    requires s.size >= 0
  {
    if Interrupts(trouble) then Refused(500)
    else if |Copied(body, chunk)| != chunk then Refused(400)
    else if final then if Chunked(s, chunk, final, body, trouble).completed then Done else Refused(500)
    else if trouble.NoUpdate? then Refused(500)
    else Resume(Wrap(s.size + chunk))
  }

  /** The session after one request. */
  function After(s: Session, quota: int, r: Request): Session {
    match Judge(s.size, s.completed, quota, r.range)
    case Finish => Committed(s, s.size, r.trouble)
    case Append(chunk, final) => Chunked(s, chunk, final, r.body, r.trouble)
    case _ => s
  }

  /** The reply: where to resume, that the upload is complete, or what is wrong. */
  function Answer(s: Session, quota: int, r: Request): Reply {
    match Judge(s.size, s.completed, quota, r.range)
    case AlreadyDone => Done
    case Tell => Resume(s.size)
    case Reject(status) => Refused(status)
    case Finish => if Committed(s, s.size, r.trouble).completed then Done else Refused(500)
    case Append(chunk, final) => ChunkAnswer(s, chunk, final, r.body, r.trouble)
  }

  class Uploads {
    const quota: int
    var size: int
    var completed: bool
    var file: Option<Bytes>
    var stored: Option<Bytes>

    function Contents(): Session
      reads this
    {
      Session(size, completed, file, stored)
    }

    constructor (quota: int)
      ensures this.quota == quota && Contents() == Session(0, false, None, None)
    {
      this.quota := quota;
      size, completed, file, stored := 0, false, None, None;
    }

    /** PutUploadSession. */
    method Put(r: Request) returns (reply: Reply)
      modifies this
      ensures Contents() == After(old(Contents()), quota, r)
      ensures reply == Answer(old(Contents()), quota, r)
    {
      if completed { return Done; }
      var chunkStart, chunkEnd, chunkTotal;
      match r.range {
        case Query => return Resume(size);
        case Malformed => return Refused(400);
        case EmptyFinal(digits, totalDigits) =>
          var start, total := Parsed(digits), Parsed(totalDigits);
          if total > quota { return Refused(413); }
          if start != size || total != size { return Resume(size); }
          var ok := Commit(size, r.trouble);
          return if ok then Done else Refused(500);
        case Chunk(s, e, t) => chunkStart, chunkEnd, chunkTotal := s, e, t;
      }
      var start, end := Parsed(chunkStart), Parsed(chunkEnd);
      if start != size { return Resume(size); }
      if end < start { return Refused(400); }
      var chunkSize := Wrap(end - start + 1);
      if Wrap(size + chunkSize) > quota { return Refused(413); }
      if chunkTotal.Some? {
        var total := Parsed(chunkTotal.value);
        if total > quota { return Refused(413); }
        if Wrap(start + chunkSize) != total { return Refused(400); }
      }
      reply := AppendChunk(chunkSize, chunkTotal, r.body, r.trouble);
    }

    /** The accepted chunk is written; a final one is committed. */
    method AppendChunk(chunkSize: int, chunkTotal: Option<nat>, body: Bytes, trouble: Trouble) returns (reply: Reply)
      requires !completed && size >= 0
      requires chunkTotal.Some? ==> Wrap(size + chunkSize) == Parsed(chunkTotal.value)
      modifies this
      ensures Contents() == Chunked(old(Contents()), chunkSize, chunkTotal.Some?, body, trouble)
      ensures reply == ChunkAnswer(old(Contents()), chunkSize, chunkTotal.Some?, body, trouble)
    {
      var copied := WriteFile(chunkSize, body, trouble);
      if copied.None? { return Refused(500); }
      if copied.value != chunkSize { return Refused(400); }
      var newSize := Wrap(size + copied.value);
      if chunkTotal.None? {
        if trouble.NoUpdate? { return Refused(500); }
        size := newSize;
        return Resume(size);
      }
      // the second comparison with the total always agrees
      assert newSize == Parsed(chunkTotal.value);
      var ok := Commit(newSize, trouble);
      return if ok then Done else Refused(500);
    }

    /** Opens, truncates and appends to the session file; None when a call fails. */
    method WriteFile(chunk: int, body: Bytes, trouble: Trouble) returns (copied: Option<nat>)
      requires size >= 0
      modifies this`file
      ensures file == FileAfter(old(Contents()), chunk, body, trouble)
      ensures copied == if Interrupts(trouble) then None else Some(|Copied(body, chunk)|)
    {
      if trouble.NoFolder? || trouble.NoOpen? { return None; }
      if file.None? { file := Some([]); }
      if trouble.NoTruncate? { return None; }
      file := Some(Truncated(file.value, size));
      if trouble.NoSeek? { return None; }
      var data := Copied(body, chunk);
      if trouble.CutShort? && trouble.bytes <= |data| { data := data[..trouble.bytes]; }
      file := Some(file.value + data);
      if trouble.CutShort? || trouble.NoClose? { return None; }
      return Some(|data|);
    }

    /** commitUploadSession. */
    method Commit(newSize: int, trouble: Trouble) returns (ok: bool)
      requires !completed
      modifies this
      ensures Contents() == Committed(old(Contents()), newSize, trouble)
      ensures ok <==> completed
    {
      if trouble.NoReopen? || file.None? { return false; }
      if trouble.NoStore? || newSize < 0 || newSize > |file.value| { return false; }
      stored := Some(file.value[..newSize]);
      if trouble.NoMark? { return false; }
      size, completed := newSize, true;
      return true;
    }
  }

  // ---------- accepted ranges ----------

  /** The wrap-around arithmetic accepts exactly the chunks that start at the
      persisted size, are inclusive ranges, end within the quota and fit their
      total; and, without a total, those whose end is the largest int64. */
  lemma AcceptedChunks(size: int, quota: int, start: nat, end: nat, total: Option<nat>)
    requires 0 <= size <= quota <= MAX_INT64
    ensures Judge(size, false, quota, Chunk(start, end, total)).Append? <==>
              && Parsed(start) == size <= Parsed(end)
              && match total
                 case None => Parsed(end) + 1 <= quota || Parsed(end) == MAX_INT64
                 case Some(digits) => Parsed(end) + 1 == Parsed(digits) <= quota
    ensures var verdict := Judge(size, false, quota, Chunk(start, end, total));
            verdict.Append? ==>
              && (verdict.final <==> total.Some?)
              && (Parsed(end) < MAX_INT64 || size > 0 ==> verdict.chunk == Parsed(end) - size + 1)
              && (Parsed(end) == MAX_INT64 && size == 0 ==> verdict.chunk < 0)
  {
  }

  // ---------- what requests are told, and what they change ----------

  /** int64 arithmetic, and numbers too long for it, as written out. */
  lemma Int64Wraps(x: int, digits: nat)
    ensures -9223372036854775808 <= Wrap(x) <= 9223372036854775807 && (x - Wrap(x)) % 18446744073709551616 == 0
    ensures Parsed(digits) == if digits <= 9223372036854775807 then digits else 9223372036854775807
  {
    var y := x + 9223372036854775808;
    assert y == y / 18446744073709551616 * 18446744073709551616 + y % 18446744073709551616;
    assert x - Wrap(x) == y / 18446744073709551616 * 18446744073709551616;
  }

  /** A reply never misinforms: done means completed, resume names the new size, and a
      refusal leaves the size as it was. */
  lemma RepliesAreTrue(s: Session, quota: int, r: Request)
    requires s.size <= quota <= MAX_INT64
    ensures var s', reply := After(s, quota, r), Answer(s, quota, r);
            && (reply == Done <==> s'.completed)
            && (reply.Resume? ==> reply.size == s'.size)
            && (reply.Refused? ==> s'.size == s.size && reply.status in {400, 413, 500})
  {
    match Judge(s.size, s.completed, quota, r.range)
    case Append(chunk, final) =>
    case _ =>
  }

  /** A request that completes the session has declared its total: that is the size now,
      within the quota, and exactly so many bytes are stored. */
  lemma CompletionHasTotal(s: Session, quota: int, r: Request)
    requires 0 <= s.size <= quota <= MAX_INT64 && !s.completed && After(s, quota, r).completed
    ensures var s', total := After(s, quota, r), DeclaredTotal(r.range);
            && total.Some? && s'.size == Parsed(total.value) <= quota
            && s'.stored.Some? && |s'.stored.value| == s'.size
  {
    if r.range.Chunk? { AcceptedChunks(s.size, quota, r.range.start, r.range.end, r.range.total); }
  }

  function DeclaredTotal(range: Range): Option<nat> {
    match range
    case Chunk(_, _, total) => total
    case EmptyFinal(_, total) => Some(total)
    case _ => None
  }

  /** An empty final range finishes only when start, total and persisted size agree;
      otherwise the session stays as it is and the client is told why. */
  lemma EmptyFinalDecides(s: Session, quota: int, start: nat, total: nat, body: Bytes, trouble: Trouble)
    requires 0 <= s.size <= quota <= MAX_INT64 && !s.completed
    ensures var r := Request(EmptyFinal(start, total), body, trouble);
            if Parsed(total) > quota then After(s, quota, r) == s && Answer(s, quota, r) == Refused(413)
            else if Parsed(start) != s.size || Parsed(total) != s.size then
              After(s, quota, r) == s && Answer(s, quota, r) == Resume(s.size)
            else if s.file.Some? && |s.file.value| >= s.size && trouble == NoTrouble then
              After(s, quota, r) == s.(stored := Some(s.file.value[..s.size]), completed := true)
              && Answer(s, quota, r) == Done
            else Answer(s, quota, r) == Done || Answer(s, quota, r) == Refused(500)
  {
  }

  lemma SmallIsNotWrapped(x: int)
    requires 0 <= x <= MAX_INT64
    ensures Wrap(x) == x
  {
  }

  /** Why a chunk is refused, for ranges short of the largest int64. */
  lemma ChunksAreJudged(size: int, quota: int, start: nat, end: nat, total: Option<nat>)
    requires 0 <= size <= quota <= MAX_INT64 && end < MAX_INT64
    ensures Judge(size, false, quota, Chunk(start, end, total)) ==
            if Parsed(start) != size then Tell
            else if end < start then Reject(400)
            else if end + 1 > quota then Reject(413)
            else if total.Some? && Parsed(total.value) > quota then Reject(413)
            else if total.Some? && Parsed(total.value) != end + 1 then Reject(400)
            else Append(end - start + 1, total.Some?)
  {
    if Parsed(start) == size && start <= end {
      SmallIsNotWrapped(end - start + 1);
      SmallIsNotWrapped(end + 1);
    }
  }

  /** A refused chunk leaves the session as it is, and its client is told why. */
  lemma ChunksAreRefused(s: Session, quota: int, start: nat, end: nat, total: Option<nat>, body: Bytes,
                         trouble: Trouble)
    requires 0 <= s.size <= quota <= MAX_INT64 && !s.completed && end < MAX_INT64
    ensures var r := Request(Chunk(start, end, total), body, trouble);
            var s', reply := After(s, quota, r), Answer(s, quota, r);
            && (Parsed(start) != s.size ==> s' == s && reply == Resume(s.size))
            && (Parsed(start) == s.size && end < start ==> s' == s && reply == Refused(400))
            && (start == s.size <= end && (end + 1 > quota || (total.Some? && Parsed(total.value) > quota)) ==>
                  s' == s && reply == Refused(413))
            && ((start == s.size <= end < quota && total.Some? && end + 1 != Parsed(total.value) <= quota) ==>
                  s' == s && reply == Refused(400))
  {
    ChunksAreJudged(s.size, quota, start, end, total);
  }

  /** A session file shorter than the persisted size is filled up with zeros. */
  lemma LostBytesAreZero(s: Session, chunk: nat, body: Bytes, i: nat)
    requires s.size >= 0 && |body| >= chunk && i < s.size
    ensures var there := if s.file.Some? then s.file.value else [];
            var file := FileAfter(s, chunk, body, NoTrouble);
            && file.Some? && |file.value| == s.size + chunk && file.value[s.size..] == body[..chunk]
            && file.value[i] == if i < |there| then there[i] else 0
  {
  }

  /** The session file after an undisturbed chunk. */
  lemma ChunkIsWritten(s: Session, chunk: nat, body: Bytes)
    requires s.size >= 0 && (s.size > 0 ==> s.file.Some? && |s.file.value| >= s.size) && |body| >= chunk
    ensures Copied(body, chunk) == body[..chunk]
    ensures FileAfter(s, chunk, body, NoTrouble)
         == Some((if s.file.Some? then s.file.value[..s.size] else []) + body[..chunk])
  {
  }

  /** What an accepted chunk does: its bytes follow the persisted ones, and then the size
      moves on, or, when the total is declared, the file is stored. */
  lemma ChunkIsAppended(s: Session, quota: int, end: nat, total: Option<nat>, body: Bytes)
    requires 0 <= s.size <= end < quota <= MAX_INT64 && !s.completed && (total.Some? ==> total.value == end + 1)
    requires (s.size > 0 ==> s.file.Some? && |s.file.value| >= s.size) && |body| >= end - s.size + 1
    ensures var r := Request(Chunk(s.size, end, total), body, NoTrouble);
            var kept := if s.file.Some? then s.file.value[..s.size] else [];
            var file := kept + body[..end - s.size + 1];
            && After(s, quota, r)
                 == Session(end + 1, total.Some?, Some(file), if total.Some? then Some(file) else s.stored)
            && Answer(s, quota, r) == if total.Some? then Done else Resume(end + 1)
  {
    ChunksAreJudged(s.size, quota, s.size, end, total);
    SmallIsNotWrapped(end + 1);
    ChunkIsWritten(s, end - s.size + 1, body);
    var file := FileAfter(s, end - s.size + 1, body, NoTrouble).value;
    assert file[..end + 1] == file;
  }

  /** A last chunk that is stored although the session cannot be marked completed. */
  lemma UnmarkedIsStored(s: Session, quota: int, end: nat, body: Bytes)
    requires 0 <= s.size <= end < quota <= MAX_INT64 && !s.completed
    requires (s.size > 0 ==> s.file.Some? && |s.file.value| >= s.size) && |body| >= end - s.size + 1
    ensures var r := Request(Chunk(s.size, end, Some(end + 1)), body, NoMark);
            var file := Some((if s.file.Some? then s.file.value[..s.size] else []) + body[..end - s.size + 1]);
            After(s, quota, r) == s.(file := file, stored := file) && Answer(s, quota, r) == Refused(500)
  {
    ChunksAreJudged(s.size, quota, s.size, end, Some(end + 1));
    SmallIsNotWrapped(end + 1);
    ChunkIsWritten(s, end - s.size + 1, body);
    var file := FileAfter(s, end - s.size + 1, body, NoTrouble).value;
    assert file[..end + 1] == file;
  }

  /** A body that is too short, and any failing call, leave the size where it was. */
  lemma ChunkIsNotTaken(s: Session, quota: int, end: nat, total: Option<nat>, body: Bytes, trouble: Trouble)
    requires 0 <= s.size <= end < quota <= MAX_INT64 && !s.completed && (total.Some? ==> total.value == end + 1)
    requires |body| < end - s.size + 1 || trouble.CutShort?
             || trouble in {NoFolder, NoOpen, NoTruncate, NoSeek, NoClose}
             || trouble in (if total.Some? then {NoReopen, NoStore, NoMark} else {NoUpdate})
    ensures var r := Request(Chunk(s.size, end, total), body, trouble);
            var s', reply := After(s, quota, r), Answer(s, quota, r);
            && s'.size == s.size && !s'.completed && (trouble != NoMark ==> s'.stored == s.stored)
            && reply == Refused(if trouble in {NoTrouble, NoUpdate, NoReopen, NoStore, NoMark}
                                   && |body| < end - s.size + 1 then 400 else 500)
  {
    ChunksAreJudged(s.size, quota, s.size, end, total);
  }

  // ---------- the persisted size ----------

  /** The request runs past the largest int64 with a body long enough for it. */
  predicate Overflows(s: Session, r: Request) {
    && !s.completed && s.size > 0
    && r.range.Chunk? && r.range.total.None?
    && Parsed(r.range.start) == s.size && Parsed(r.range.end) == MAX_INT64
    && |r.body| >= MAX_INT64 - s.size + 1
    && !Interrupts(r.trouble) && !r.trouble.NoUpdate?
  }

  /** The persisted size never shrinks and never exceeds the quota, except by a
      request that overflows. */
  lemma SizeIsKept(s: Session, quota: int, r: Request)
    requires 0 <= s.size <= quota <= MAX_INT64
    ensures s.size <= After(s, quota, r).size <= quota <==> !Overflows(s, r)
  {
    if r.range.Chunk? { AcceptedChunks(s.size, quota, r.range.start, r.range.end, r.range.total); }
  }

  /** Bodies shorter than 2^63 minus the quota never overflow. */
  lemma ShortBodiesKeepSize(s: Session, quota: int, r: Request)
    requires 0 <= s.size <= quota <= MAX_INT64 && |r.body| <= MAX_INT64 - quota
    ensures s.size <= After(s, quota, r).size <= quota
  {
    SizeIsKept(s, quota, r);
  }

  /** The bound on bodies is needed: with one byte persisted under any quota, a
      chunk to the largest int64 makes the size negative. */
  lemma LongBodyWraps(quota: int, stored: Option<Bytes>)
    requires 1 <= quota <= MAX_INT64
    ensures exists s: Session, r: Request :: s.size == 1 && s.stored == stored && After(s, quota, r).size < 0
  {
    var s := Session(1, false, Some([0]), stored);
    var r := Request(Chunk(1, MAX_INT64, None), Zeros(MAX_INT64), NoTrouble);
    assert Overflows(s, r);
    AcceptedChunks(1, quota, 1, MAX_INT64, None);
    assert After(s, quota, r).size < 0;
  }

  // ---------- what is uploaded ----------

  /** The body repeats the source at the declared offsets; whatever it holds
      beyond its declared range does not matter. */
  predicate Agrees(source: Bytes, r: Request) {
    r.range.Chunk? ==>
      forall i | 0 <= i < |r.body| && r.range.start + i <= r.range.end ::
        r.range.start + i < |source| && r.body[i] == source[r.range.start + i]
  }

  /** The persisted size is backed by that many source bytes in the session file,
      or has wrapped around and is stuck; a completed object is exact. */
  predicate Faithful(s: Session, source: Bytes) {
    if s.completed then 0 <= s.size <= |source| && s.stored == Some(source[..s.size])
    else s.size > 0 ==> s.size <= |source| && s.file.Some? && HoldsPrefix(s.file.value, source, s.size)
  }

  predicate HoldsPrefix(file: Bytes, source: Bytes, n: int) {
    0 <= n <= |file| && n <= |source| && file[..n] == source[..n]
  }

  /** The session after a sequence of requests. */
  function Run(s: Session, quota: int, requests: seq<Request>): Session
    decreases |requests|
  {
    if requests == [] then s else Run(After(s, quota, requests[0]), quota, requests[1..])
  }

  /** Truncating to the persisted size keeps the backed bytes. */
  lemma FileKeepsPrefix(s: Session, chunk: int, body: Bytes, trouble: Trouble, source: Bytes)
    requires s.size >= 0 && Faithful(s, source) && !s.completed
    ensures s.size > 0 ==> var file := FileAfter(s, chunk, body, trouble);
                           file.Some? && HoldsPrefix(file.value, source, s.size)
  {
  }

  /** The copied chunk repeats the source. */
  lemma ChunkAgrees(r: Request, chunk: int, source: Bytes)
    requires r.range.Chunk? && Agrees(source, r) && 0 < chunk <= r.range.end - r.range.start + 1
    requires |Copied(r.body, chunk)| == chunk
    ensures r.range.start + chunk <= |source| && Copied(r.body, chunk) == source[r.range.start..r.range.start + chunk]
  {
    var start := r.range.start;
    var last := r.body[chunk - 1];
    assert start + (chunk - 1) < |source|;
    forall i | 0 <= i < chunk ensures Copied(r.body, chunk)[i] == source[start..start + chunk][i] {
      assert r.body[i] == source[start + i];
    }
  }

  /** A whole chunk extends the backed bytes by its range. */
  lemma ChunkExtendsPrefix(s: Session, chunk: int, r: Request, source: Bytes)
    requires s.size >= 0 && Faithful(s, source) && !s.completed && Agrees(source, r)
    requires r.range.Chunk? && r.range.start == s.size && 0 < chunk <= r.range.end - s.size + 1
    requires !Interrupts(r.trouble) && |Copied(r.body, chunk)| == chunk
    ensures var file := FileAfter(s, chunk, r.body, r.trouble);
            file.Some? && |file.value| == s.size + chunk && HoldsPrefix(file.value, source, s.size + chunk)
  {
    ChunkAgrees(r, chunk, source);
    var n := s.size;
    assert source[..n + chunk] == source[..n] + source[n..n + chunk];
  }

  lemma CommitKeepsFaith(s: Session, size: int, trouble: Trouble, source: Bytes)
    requires Faithful(s, source) && !s.completed
    requires s.file.Some? && 0 <= size <= |s.file.value| ==> HoldsPrefix(s.file.value, source, size)
    ensures Faithful(Committed(s, size, trouble), source)
  {
  }

  /** A chunk whose end is not the largest int64. */
  lemma ChunkKeepsFaith(s: Session, chunk: int, final: bool, r: Request, source: Bytes)
    requires s.size >= 0 && Faithful(s, source) && !s.completed && Agrees(source, r)
    requires r.range.Chunk? && r.range.start == s.size && 0 < chunk <= r.range.end - s.size + 1
    requires s.size + chunk <= MAX_INT64
    ensures Faithful(Chunked(s, chunk, final, r.body, r.trouble), source)
  {
    var written := s.(file := FileAfter(s, chunk, r.body, r.trouble));
    FileKeepsPrefix(s, chunk, r.body, r.trouble, source);
    if !Interrupts(r.trouble) && |Copied(r.body, chunk)| == chunk {
      ChunkExtendsPrefix(s, chunk, r, source);
      if final { CommitKeepsFaith(written, s.size + chunk, r.trouble, source); }
    }
  }

  /** A chunk to the largest int64 is refused, or leaves the session stuck. */
  lemma OverflowKeepsFaith(s: Session, chunk: int, r: Request, source: Bytes)
    requires s.size >= 0 && Faithful(s, source) && !s.completed
    requires chunk > 0 ==> Wrap(s.size + chunk) < 0
    ensures Faithful(Chunked(s, chunk, false, r.body, r.trouble), source)
  {
    FileKeepsPrefix(s, chunk, r.body, r.trouble, source);
  }

  lemma RequestKeepsFaith(s: Session, quota: int, r: Request, source: Bytes)
    requires s.size <= quota <= MAX_INT64
    requires Faithful(s, source) && Agrees(source, r)
    ensures Faithful(After(s, quota, r), source)
  {
    match Judge(s.size, s.completed, quota, r.range)
    case Append(chunk, final) =>
      AcceptedChunks(s.size, quota, r.range.start, r.range.end, r.range.total);
      if Parsed(r.range.end) < MAX_INT64 { ChunkKeepsFaith(s, chunk, final, r, source); }
      else { OverflowKeepsFaith(s, chunk, r, source); }
    case Finish => CommitKeepsFaith(s, s.size, r.trouble, source);
    case _ =>
  }

  /** The persisted size never exceeds the quota, overflow or not. */
  lemma SizeStaysBelowQuota(s: Session, quota: int, r: Request)
    requires s.size <= quota <= MAX_INT64
    ensures After(s, quota, r).size <= quota
  {
    if s.size >= 0 { SizeIsKept(s, quota, r); }
  }

  /** However often requests are retried, cut short, refused or stopped by a crash,
      a completed session has stored exactly the first size bytes of the source. */
  lemma {:induction false} CompletedUploadsAreExact(s: Session, quota: int, requests: seq<Request>, source: Bytes)
    requires s.size <= quota <= MAX_INT64 && Faithful(s, source)
    requires forall i | 0 <= i < |requests| :: Agrees(source, requests[i])
    ensures var end := Run(s, quota, requests);
            && Faithful(end, source)
            && (end.completed ==> 0 <= end.size <= |source| && end.stored == Some(source[..end.size]))
    decreases |requests|
  {
    if requests != [] {
      RequestKeepsFaith(s, quota, requests[0], source);
      SizeStaysBelowQuota(s, quota, requests[0]);
      CompletedUploadsAreExact(After(s, quota, requests[0]), quota, requests[1..], source);
    }
  }

  /** Over a whole run of bodies too short to overflow, the size stays within the
      quota and only grows. */
  lemma {:induction false} RunKeepsSize(s: Session, quota: int, requests: seq<Request>)
    requires 0 <= s.size <= quota <= MAX_INT64
    requires forall i | 0 <= i < |requests| :: |requests[i].body| <= MAX_INT64 - quota
    ensures s.size <= Run(s, quota, requests).size <= quota
    decreases |requests|
  {
    if requests != [] {
      ShortBodiesKeepSize(s, quota, requests[0]);
      RunKeepsSize(After(s, quota, requests[0]), quota, requests[1..]);
    }
  }

  // ---------- retries ----------

  /** A completed session never changes again. */
  lemma {:induction false} CompletedIsFinal(s: Session, quota: int, requests: seq<Request>)
    requires s.completed
    ensures Run(s, quota, requests) == s
    decreases |requests|
  {
    if requests != [] { CompletedIsFinal(s, quota, requests[1..]); }
  }

  /** Repeating a request whose reply was lost changes nothing: it is told where
      the session stands. */
  lemma RetryIsHarmless(s: Session, quota: int, r: Request, again: Request)
    requires 0 <= s.size <= quota <= MAX_INT64 && again.range == r.range
    requires After(s, quota, r).size != s.size || After(s, quota, r).completed
    ensures var s' := After(s, quota, r);
            After(s', quota, again) == s' && Answer(s', quota, again) == if s'.completed then Done else Resume(s'.size)
  {
    if r.range.Chunk? { AcceptedChunks(s.size, quota, r.range.start, r.range.end, r.range.total); }
  }

  /** What a client that knows the size sends: the rest of the source, or the empty
      final range when every byte is there. */
  function Rest(size: int, source: Bytes): Request
    requires 0 <= size <= |source|
  {
    if size < |source| then Request(Chunk(size, |source| - 1, Some(|source|)), source[size..], NoTrouble)
    else Request(EmptyFinal(|source|, |source|), [], NoTrouble)
  }

  /** Of an upload that lacks some bytes. */
  lemma LastBytesComplete(s: Session, quota: int, source: Bytes)
    requires Faithful(s, source) && !s.completed && 0 <= s.size < |source| <= quota < MAX_INT64
    ensures var rest := Rest(s.size, source);
            After(s, quota, rest).completed && After(s, quota, rest).size == |source|
            && After(s, quota, rest).stored == Some(source) && Answer(s, quota, rest) == Done
  {
    AcceptedChunks(s.size, quota, s.size, |source| - 1, Some(|source|));
    ChunkExtendsPrefix(s, |source| - s.size, Rest(s.size, source), source);
    assert source[..|source|] == source;
  }

  /** Of one that lacks none: it is completed when there is a file. */
  lemma EmptyRangeCompletes(s: Session, quota: int, source: Bytes)
    requires Faithful(s, source) && !s.completed && s.size == |source| <= quota < MAX_INT64
    ensures var rest := Rest(s.size, source);
            var s' := After(s, quota, rest);
            && (s'.completed <==> source != [] || s.file.Some?)
            && (s'.completed ==> s'.size == |source| && s'.stored == Some(source) && Answer(s, quota, rest) == Done)
  {
    assert source[..|source|] == source;
  }

  /** Whatever went wrong before, asking for the size and sending the rest of the
      source from there completes the upload, except that of an empty source no request
      has made a file for. */
  lemma RestCompletes(s: Session, quota: int, source: Bytes)
    requires Faithful(s, source) && !s.completed && 0 <= s.size <= |source| <= quota < MAX_INT64
    ensures Answer(s, quota, Request(Query, [], NoTrouble)) == Resume(s.size)
    ensures var rest := Rest(s.size, source);
            var s' := After(s, quota, rest);
            && (s'.completed <==> source != [] || s.file.Some?)
            && (s'.completed ==> s'.size == |source| && s'.stored == Some(source) && Answer(s, quota, rest) == Done)
  {
    if s.size < |source| { LastBytesComplete(s, quota, source); } else { EmptyRangeCompletes(s, quota, source); }
  }
}
