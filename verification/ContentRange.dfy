/** The headers of the resumable protocol as text: the Content-Range of a PUT and
    the Range of a resume reply. */
module ContentRange {
  import opened Records
  import opened UploadSession

  predicate Digit(c: char) { '0' <= c <= '9' }

  predicate Digits(s: string) { s != "" && forall i | 0 <= i < |s| :: Digit(s[i]) }

  /** The value of a run of digits, leading zeros allowed. */
  function Number(s: string): nat
    requires s == "" || Digits(s)
  {
    if s == "" then 0 else 10 * Number(s[..|s| - 1]) + (s[|s| - 1] as int - '0' as int)
  }

  function Decimal(n: nat): (s: string)
    ensures Digits(s)
  {
    var last := [(n % 10 + '0' as int) as char];
    if n < 10 then last else Decimal(n / 10) + last
  }

  lemma {:induction false} DecimalIsRead(n: nat)
    ensures Number(Decimal(n)) == n
  {
    if n >= 10 {
      DecimalIsRead(n / 10);
      assert Decimal(n)[..|Decimal(n)| - 1] == Decimal(n / 10);
    }
  }

  /** How many digits s starts with. */
  function DigitRun(s: string): (n: nat)
    ensures n <= |s| && (forall i | 0 <= i < n :: Digit(s[i])) && (n < |s| ==> !Digit(s[n]))
  {
    if s == "" || !Digit(s[0]) then 0 else 1 + DigitRun(s[1..])
  }

  predicate StartsWith(s: string, prefix: string) { |prefix| <= |s| && s[..|prefix|] == prefix }

  function ParseRange(header: string): Range {
    if header == "bytes */*" then Query
    else if !StartsWith(header, "bytes ") then Malformed
    else
      var rest := header[6..];
      var n := DigitRun(rest);
      if n == 0 || n == |rest| || rest[n] != '-' then Malformed
      else ParseEnd(Number(rest[..n]), rest[n + 1..])
  }

  /** What follows the dash: the end of a chunk, or the -1 of an empty final range. */
  function ParseEnd(start: nat, rest: string): Range {
    if StartsWith(rest, "-1/") then
      if Digits(rest[3..]) then EmptyFinal(start, Number(rest[3..])) else Malformed
    else
      var n := DigitRun(rest);
      if n == 0 || n == |rest| || rest[n] != '/' then Malformed
      else ParseTotal(start, Number(rest[..n]), rest[n + 1..])
  }

  function ParseTotal(start: nat, end: nat, rest: string): Range {
    if rest == "*" then Chunk(start, end, None)
    else if Digits(rest) then Chunk(start, end, Some(Number(rest)))
    else Malformed
  }

  // ---------- the two patterns ----------

  predicate Numeric(s: string) {
    |s| > 0 && forall i | 0 <= i < |s| :: '0' <= s[i] <= '9'
  }

  /** bytes DIGITS-DIGITS/(*|DIGITS) */
  predicate ChunkText(header: string, start: string, end: string, total: string) {
    && header == "bytes " + start + "-" + end + "/" + total
    && Numeric(start) && Numeric(end) && (total == "*" || Numeric(total))
  }

  /** bytes DIGITS--1/DIGITS */
  predicate EmptyFinalText(header: string, start: string, total: string) {
    header == "bytes " + start + "--1/" + total && Numeric(start) && Numeric(total)
  }

  lemma {:induction false} DigitRunStops(s: string, rest: string)
    requires (forall i | 0 <= i < |s| :: Digit(s[i])) && (rest == "" || !Digit(rest[0]))
    ensures DigitRun(s + rest) == |s|
  {
    if s == "" {
      assert s + rest == rest;
    } else {
      assert (s + rest)[1..] == s[1..] + rest;
      DigitRunStops(s[1..], rest);
    }
  }

  lemma HeaderSplits(header: string, start: string, rest: string)
    requires Digits(start) && header == "bytes " + start + "-" + rest
    ensures ParseRange(header) == ParseEnd(Number(start), rest)
  {
    assert header[..6] == "bytes " && header[6..] == start + ("-" + rest);
    DigitRunStops(start, "-" + rest);
    assert header[6] == start[0];
    assert (start + ("-" + rest))[..|start|] == start && (start + ("-" + rest))[|start| + 1..] == rest;
  }

  lemma EndSplits(start: nat, end: string, total: string)
    requires Digits(end)
    ensures ParseEnd(start, end + ("/" + total)) == ParseTotal(start, Number(end), total)
  {
    var tail := "/" + total;
    DigitRunStops(end, tail);
    Halves(end, tail);
    assert tail[1..] == total;
    assert (end + tail)[|end| + 1..] == total;
  }

  lemma Halves(a: string, b: string)
    ensures (a + b)[..|a|] == a && (a + b)[|a|..] == b
  {
  }

  lemma ChunkTextIsParsed(header: string, start: string, end: string, total: string)
    requires ChunkText(header, start, end, total)
    ensures ParseRange(header) == Chunk(Number(start), Number(end), if total == "*" then None else Some(Number(total)))
  {
    assert header == "bytes " + start + "-" + (end + ("/" + total));
    HeaderSplits(header, start, end + ("/" + total));
    EndSplits(Number(start), end, total);
    assert total != "*" || !Digit(total[0]);
  }

  lemma EmptyFinalTextIsParsed(header: string, start: string, total: string)
    requires EmptyFinalText(header, start, total)
    ensures ParseRange(header) == EmptyFinal(Number(start), Number(total))
  {
    var rest := "-1/" + total;
    assert header == "bytes " + start + "-" + rest;
    HeaderSplits(header, start, rest);
    assert rest[..3] == "-1/" && rest[3..] == total;
  }

  lemma Joined(s: string, n: nat)
    requires n < |s|
    ensures s == s[..n] + [s[n]] + s[n + 1..]
  {
  }

  lemma Associate(a: string, b: string, c: string, d: string)
    ensures a + b + c + d == a + (b + c + d)
  {
  }

  lemma DashesJoin(a: string, b: string)
    ensures a + "-" + ("-1/" + b) == a + "--1/" + b
  {
  }

  lemma PrefixIsCut(header: string)
    requires StartsWith(header, "bytes ")
    ensures header == "bytes " + header[6..]
  {
    assert header == header[..6] + header[6..];
  }

  lemma StartIsMatched(header: string) returns (start: string, tail: string)
    requires ParseRange(header) != Query && ParseRange(header) != Malformed
    ensures Digits(start) && header == "bytes " + start + "-" + tail
    ensures ParseRange(header) == ParseEnd(Number(start), tail)
  {
    var rest := header[6..];
    var n := DigitRun(rest);
    start, tail := rest[..n], rest[n + 1..];
    Joined(rest, n);
    PrefixIsCut(header);
    Associate("bytes ", start, "-", tail);
  }

  lemma EndIsMatched(start: nat, rest: string) returns (end: string, total: string)
    requires ParseEnd(start, rest).Chunk?
    ensures Digits(end) && rest == end + "/" + total && (total == "*" || Digits(total))
  {
    var n := DigitRun(rest);
    end, total := rest[..n], rest[n + 1..];
    Joined(rest, n);
  }

  lemma ChunkIsMatched(header: string)
    requires ParseRange(header).Chunk?
    ensures exists start, end, total :: ChunkText(header, start, end, total)
  {
    var start, tail := StartIsMatched(header);
    var end, total := EndIsMatched(Number(start), tail);
    Associate("bytes " + start + "-", end, "/", total);
    assert ChunkText(header, start, end, total);
  }

  lemma EmptyFinalIsMatched(header: string)
    requires ParseRange(header).EmptyFinal?
    ensures exists start, total :: EmptyFinalText(header, start, total)
  {
    var start, tail := StartIsMatched(header);
    assert tail == "-1/" + tail[3..];
    DashesJoin("bytes " + start, tail[3..]);
    assert EmptyFinalText(header, start, tail[3..]);
  }

  /** Only texts of the two patterns and the query are understood. */
  lemma ParsedTextMatches(header: string)
    ensures ParseRange(header).Query? <==> header == "bytes */*"
    ensures ParseRange(header).Chunk? <==> exists start, end, total :: ChunkText(header, start, end, total)
    ensures ParseRange(header).EmptyFinal? <==> exists start, total :: EmptyFinalText(header, start, total)
  {
    if ParseRange(header).Chunk? { ChunkIsMatched(header); }
    if ParseRange(header).EmptyFinal? { EmptyFinalIsMatched(header); }
    if start, end, total :| ChunkText(header, start, end, total) { ChunkTextIsParsed(header, start, end, total); }
    if start, total :| EmptyFinalText(header, start, total) { EmptyFinalTextIsParsed(header, start, total); }
  }

  // ---------- what a client writes and reads ----------

  function Render(range: Range): string {
    match range
    case Query => "bytes */*"
    case Chunk(start, end, None) => "bytes " + Decimal(start) + "-" + Decimal(end) + "/" + "*"
    case Chunk(start, end, Some(total)) => "bytes " + Decimal(start) + "-" + Decimal(end) + "/" + Decimal(total)
    case EmptyFinal(start, total) => "bytes " + Decimal(start) + "--1/" + Decimal(total)
    case Malformed => ""
  }

  /** A rendered range is read back as it was meant. */
  lemma RangesRoundTrip(range: Range)
    ensures ParseRange(Render(range)) == range
  {
    match range
    case Query =>
    case Malformed =>
    case Chunk(start, end, total) =>
      DecimalIsRead(start);
      DecimalIsRead(end);
      var text := if total.None? then "*" else Decimal(total.value);
      if total.Some? { DecimalIsRead(total.value); assert Digit(text[0]); }
      ChunkTextIsParsed(Render(range), Decimal(start), Decimal(end), text);
    case EmptyFinal(start, total) =>
      DecimalIsRead(start);
      DecimalIsRead(total);
      EmptyFinalTextIsParsed(Render(range), Decimal(start), Decimal(total));
  }

  /** writeResumeRange: the last byte received, or no header before the first. */
  function RangeHeader(size: int): Option<string> {
    if size > 0 then Some("bytes=0-" + Decimal(size - 1)) else None
  }

  /** Where a client that reads this header goes on. */
  function NextOffset(header: Option<string>): Option<nat> {
    if header.None? then Some(0)
    else if StartsWith(header.value, "bytes=0-") && Digits(header.value[8..]) then Some(Number(header.value[8..]) + 1)
    else None
  }

  /** The inclusive form on the way back: the client resumes at the persisted size. */
  lemma ResumeOffsetIsSize(size: nat)
    ensures NextOffset(RangeHeader(size)) == Some(size)
  {
    if size > 0 {
      DecimalIsRead(size - 1);
      var header := "bytes=0-" + Decimal(size - 1);
      assert header[..8] == "bytes=0-" && header[8..] == Decimal(size - 1);
    }
  }

  lemma SmallDecimals()
    ensures Decimal(0) == "0" && Decimal(99) == "99" && Decimal(100) == "100"
    ensures Decimal(149) == "149" && Decimal(150) == "150"
  {
    assert Decimal(9) == "9" && Decimal(1) == "1";
    assert Decimal(10) == "10" && Decimal(14) == "14" && Decimal(15) == "15";
  }

  lemma FirstChunk()
    ensures ParseRange("bytes 0-99/*") == Chunk(0, 99, None)
  {
    SmallDecimals();
    assert "bytes " + "0" + "-" + "99" + "/" + "*" == "bytes 0-99/*";
    RangesRoundTrip(Chunk(0, 99, None));
  }

  lemma LastChunk()
    ensures ParseRange("bytes 100-149/150") == Chunk(100, 149, Some(150))
  {
    SmallDecimals();
    assert "bytes " + "100" + "-" + "149" + "/" + "150" == "bytes 100-149/150";
    RangesRoundTrip(Chunk(100, 149, Some(150)));
  }

  lemma EmptyEnd()
    ensures ParseRange("bytes 150--1/150") == EmptyFinal(150, 150)
  {
    SmallDecimals();
    assert "bytes " + "150" + "--1/" + "150" == "bytes 150--1/150";
    RangesRoundTrip(EmptyFinal(150, 150));
  }

  lemma ResumeHeaders()
    ensures RangeHeader(0) == None && RangeHeader(100) == Some("bytes=0-99") && RangeHeader(150) == Some("bytes=0-149")
  {
    SmallDecimals();
    assert "bytes=0-" + "99" == "bytes=0-99" && "bytes=0-" + "149" == "bytes=0-149";
  }

  /** An upload of 150 bytes in two chunks, as it looks on the wire. */
  lemma HeadersOfAnUpload()
    ensures ParseRange("bytes 0-99/*") == Chunk(0, 99, None) && RangeHeader(100) == Some("bytes=0-99")
    ensures ParseRange("bytes 100-149/150") == Chunk(100, 149, Some(150))
    ensures ParseRange("bytes 150--1/150") == EmptyFinal(150, 150)
    ensures RangeHeader(0) == None && RangeHeader(150) == Some("bytes=0-149")
  {
    FirstChunk();
    LastChunk();
    EmptyEnd();
    ResumeHeaders();
  }
}
