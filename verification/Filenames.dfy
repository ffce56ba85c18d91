/** sanitizeFilenamePart: which strings it produces, and that those are exactly the
    strings it leaves alone. */
module Filenames {

  const MAX_LENGTH := 80

  predicate Alnum(c: char) { 'a' <= c <= 'z' || 'A' <= c <= 'Z' || '0' <= c <= '9' }

  predicate Kept(c: char) { Alnum(c) || c == '.' || c == '_' }

  /** The characters trimmed off both ends. */
  predicate Punctuation(c: char) { c == '-' || c == '.' || c == '_' }

  function TrimLeft(s: string): string {
    if s != "" && Punctuation(s[0]) then TrimLeft(s[1..]) else s
  }

  function TrimRight(s: string): string {
    if s != "" && Punctuation(s[|s| - 1]) then TrimRight(s[..|s| - 1]) else s
  }

  function Trim(s: string): string { TrimRight(TrimLeft(s)) }

  /** Appends one input character, with the dash owed for rejected ones before it. */
  function Extended(built: string, pendingDash: bool, c: char): string {
    if !Kept(c) then built
    else if pendingDash && built != "" then built + "-" + [c]
    else built + [c]
  }

  function Scan(value: string, built: string, pendingDash: bool): string
    decreases |value|
  {
    if value == "" then built
    else
      var next := Extended(built, pendingDash, value[0]);
      if |next| >= MAX_LENGTH then next else Scan(value[1..], next, !Kept(value[0]))
  }

  function Sanitized(value: string): string { Trim(Scan(value, "", false)) }

  method SanitizeFilenamePart(value: string) returns (r: string)
    ensures r == Sanitized(value)
  {
    var built, pendingDash, i := "", false, 0;
    while i < |value|
      invariant 0 <= i <= |value|
      invariant Scan(value[i..], built, pendingDash) == Scan(value, "", false)
    {
      var c := value[i];
      if Kept(c) {
        if pendingDash && |built| > 0 { built := built + "-"; }
        pendingDash := false;
        built := built + [c];
      } else {
        pendingDash := true;
      }
      assert value[i..][1..] == value[i + 1..];
      i := i + 1;
      if |built| >= MAX_LENGTH { return Trim(built); }
    }
    return Trim(built);
  }

  // ---------- what the result looks like ----------

  /** Kept characters and single dashes between them. */
  predicate Tidy(s: string) {
    && (forall i | 0 <= i < |s| :: Kept(s[i]) || s[i] == '-')
    && (forall i | 0 <= i < |s| - 1 :: s[i] != '-' || s[i + 1] != '-')
  }

  /** A dash and the character after it can be the 80th and 81st. */
  predicate Fits(s: string) { |s| <= MAX_LENGTH || (|s| == MAX_LENGTH + 1 && s[MAX_LENGTH - 1] == '-') }

  predicate Clean(s: string) {
    Tidy(s) && Fits(s) && (s != "" ==> Alnum(s[0]) && Alnum(s[|s| - 1]))
  }

  lemma {:induction false} ScanIsTidy(value: string, built: string, pendingDash: bool)
    requires Tidy(built) && |built| < MAX_LENGTH && (built != "" ==> built[|built| - 1] != '-')
    ensures Tidy(Scan(value, built, pendingDash)) && Fits(Scan(value, built, pendingDash))
    decreases |value|
  {
    if value != "" {
      var next := Extended(built, pendingDash, value[0]);
      if |next| < MAX_LENGTH { ScanIsTidy(value[1..], next, !Kept(value[0])); }
    }
  }

  lemma {:induction false} TrimLeftCuts(s: string) returns (k: nat)
    ensures k <= |s| && TrimLeft(s) == s[k..] && (k < |s| ==> !Punctuation(s[k]))
  {
    k := 0;
    if s != "" && Punctuation(s[0]) {
      var rest := TrimLeftCuts(s[1..]);
      k := rest + 1;
    }
  }

  lemma {:induction false} TrimRightCuts(s: string) returns (k: nat)
    ensures k <= |s| && TrimRight(s) == s[..k] && (k > 0 ==> !Punctuation(s[k - 1]))
  {
    k := |s|;
    if s != "" && Punctuation(s[|s| - 1]) {
      k := TrimRightCuts(s[..|s| - 1]);
    }
  }

  /** Whatever the input: letters, digits, dots, underscores and single dashes, at
      most 81 of them, beginning and ending with a letter or digit. */
  lemma SanitizedIsClean(value: string)
    ensures Clean(Sanitized(value)) && |Sanitized(value)| <= 81
  {
    var s := Scan(value, "", false);
    ScanIsTidy(value, "", false);
    var i := TrimLeftCuts(s);
    var j := TrimRightCuts(s[i..]);
    assert Sanitized(value) == s[i..][..j];
    if j > 0 { assert s[i..][..j][0] == s[i] && s[i..][..j][j - 1] == s[i + j - 1]; }
  }

  // ---------- tidy strings are only trimmed, clean ones left alone ----------

  /** Tidy, within the limit, and with no dash at the ends: the scan keeps all of it. */
  predicate Scannable(s: string) {
    Tidy(s) && Fits(s) && (s != "" ==> Kept(s[0]) && Kept(s[|s| - 1]))
  }

  /** built and the dash owed to it are the first done characters of s. */
  predicate Rebuilt(s: string, done: nat, built: string, pendingDash: bool) {
    done <= |s| && s[..done] == built + (if pendingDash then "-" else "") && (built == "" ==> done == 0)
  }

  lemma RebuildsOneMore(s: string, done: nat, built: string, pendingDash: bool)
    requires Scannable(s) && done < |s| && Rebuilt(s, done, built, pendingDash)
    ensures Rebuilt(s, done + 1, Extended(built, pendingDash, s[done]), !Kept(s[done]))
  {
    assert s[..done + 1] == s[..done] + [s[done]];
    if pendingDash { assert s[done - 1] == s[..done][done - 1] == '-'; }
  }

  /** It is never cut: it ends where the length limit strikes. */
  lemma LimitIsTheEnd(s: string, done: nat, built: string, pendingDash: bool)
    requires Scannable(s) && done < |s| && Rebuilt(s, done, built, pendingDash) && |built| < MAX_LENGTH
    requires |Extended(built, pendingDash, s[done])| >= MAX_LENGTH
    ensures Extended(built, pendingDash, s[done]) == s
  {
    RebuildsOneMore(s, done, built, pendingDash);
    assert Kept(s[done]);
    assert s[..done + 1] == Extended(built, pendingDash, s[done]);
    assert s[..|s|] == s;
  }

  lemma TailAt(s: string, k: nat)
    requires k < |s|
    ensures s[k..] != "" && s[k..][0] == s[k] && s[k..][1..] == s[k + 1..]
  {
  }

  /** Scanning it, with more to follow when it is as long as can be, rebuilds it. */
  lemma {:induction false} ScanRepeats(s: string, more: string, done: nat, built: string, pendingDash: bool)
    requires Scannable(s) && Rebuilt(s, done, built, pendingDash) && |built| < MAX_LENGTH
    requires more == "" || |s| >= MAX_LENGTH
    ensures Scan(s[done..] + more, built, pendingDash) == s
    decreases |s| - done
  {
    if done == |s| {
      assert s[..done] == s && more == "";
    } else {
      TailAt(s, done);
      assert (s[done..] + more)[0] == s[done] && (s[done..] + more)[1..] == s[done + 1..] + more;
      RebuildsOneMore(s, done, built, pendingDash);
      var next := Extended(built, pendingDash, s[done]);
      if |next| >= MAX_LENGTH { LimitIsTheEnd(s, done, built, pendingDash); }
      else { ScanRepeats(s, more, done + 1, next, !Kept(s[done])); }
    }
  }

  lemma ScannableIsScanned(s: string, more: string)
    requires Scannable(s) && (more == "" || |s| >= MAX_LENGTH)
    ensures Scan(s + more, "", false) == s
  {
    assert s[0..] == s && s[..0] == "";
    ScanRepeats(s, more, 0, "", false);
  }

  /** Of such a string only the punctuation at its ends is dropped. */
  lemma TidyIsTrimmed(s: string) returns (i: nat, j: nat)
    requires Scannable(s)
    ensures i <= j <= |s| && Sanitized(s) == s[i..j]
    ensures forall k | 0 <= k < i || j <= k < |s| :: s[k] in {'.', '_'} || s[k] == '-'
    ensures i < j ==> Alnum(s[i]) && Alnum(s[j - 1])
  {
    ScannableIsScanned(s, "");
    assert s + "" == s;
    i := TrimmedLeft(s);
    var n := TrimmedRight(s[i..]);
    j := i + n;
    forall k | 0 <= k < i || j <= k < |s| ensures Punctuation(s[k]) {
      if k < i { assert s[..i][k] == s[k]; } else { assert s[i..][n..][k - j] == s[k]; }
    }
    SanitizedIsClean(s);
    assert s[i..][..n] == s[i..j];
  }

  /** Once 80 characters are there, whatever follows is cut off. */
  lemma LongIsCut(s: string, more: string)
    requires Scannable(s) && |s| >= 80
    ensures Sanitized(s + more) == Sanitized(s)
  {
    ScannableIsScanned(s, more);
    ScannableIsScanned(s, "");
    assert s + "" == s;
  }

  /** The strings left alone are exactly the clean ones. */
  lemma FixedIffClean(s: string)
    ensures Sanitized(s) == s <==> Clean(s)
    ensures Sanitized(s) == s <==>
              && (forall i | 0 <= i < |s| ::
                    'a' <= s[i] <= 'z' || 'A' <= s[i] <= 'Z' || '0' <= s[i] <= '9' || s[i] in {'.', '_', '-'})
              && (forall i | 0 <= i < |s| - 1 :: s[i] != '-' || s[i + 1] != '-')
              && (|s| <= 80 || (|s| == 81 && s[79] == '-'))
              && (s != "" ==> s[0] !in {'.', '_', '-'} && s[|s| - 1] !in {'.', '_', '-'})
  {
    if Clean(s) {
      ScannableIsScanned(s, "");
      assert s + "" == s;
    }
    SanitizedIsClean(s);
  }

  // ---------- rejected characters ----------

  predicate Rejected(w: string) {
    forall i | 0 <= i < |w| ::
      !('a' <= w[i] <= 'z' || 'A' <= w[i] <= 'Z' || '0' <= w[i] <= '9' || w[i] == '.' || w[i] == '_')
  }

  /** The scan of x and what follows it, step by step. */
  lemma ScanOneMore(x: string, y: string, built: string, pendingDash: bool)
    requires x != "" && |built| < MAX_LENGTH
    ensures var next := Extended(built, pendingDash, x[0]);
            Scan(x + y, built, pendingDash)
              == if |next| >= MAX_LENGTH then next else Scan(x[1..] + y, next, !Kept(x[0]))
  {
    assert (x + y)[0] == x[0] && (x + y)[1..] == x[1..] + y;
  }

  /** A run of them leaves nothing but a dash owed. */
  lemma {:induction false} RejectedRunOwesDash(w: string, y: string, built: string, pendingDash: bool)
    requires Rejected(w) && w != "" && |built| < MAX_LENGTH
    ensures Scan(w + y, built, pendingDash) == Scan(y, built, true)
    decreases |w|
  {
    ScanOneMore(w, y, built, pendingDash);
    if |w| > 1 {
      RejectedRunOwesDash(w[1..], y, built, true);
    } else {
      assert w[1..] + y == y;
    }
  }

  /** What is scanned alike from every state is scanned alike after any x. */
  lemma {:induction false} ScanAfter(x: string, y: string, z: string, built: string, pendingDash: bool)
    requires |built| < MAX_LENGTH
    requires forall b, d: bool | |b| < MAX_LENGTH :: Scan(y, b, d) == Scan(z, b, d)
    ensures Scan(x + y, built, pendingDash) == Scan(x + z, built, pendingDash)
    decreases |x|
  {
    if x == "" {
      assert x + y == y && x + z == z;
    } else {
      ScanOneMore(x, y, built, pendingDash);
      ScanOneMore(x, z, built, pendingDash);
      var next := Extended(built, pendingDash, x[0]);
      if |next| < MAX_LENGTH { ScanAfter(x[1..], y, z, next, !Kept(x[0])); }
    }
  }

  /** A run of rejected characters is as good as a single dash. */
  lemma RunsCollapse(x: string, w: string, y: string)
    requires Rejected(w) && w != ""
    ensures Sanitized(x + w + y) == Sanitized(x + "-" + y)
  {
    forall b, d: bool | |b| < MAX_LENGTH ensures Scan(w + y, b, d) == Scan("-" + y, b, d) {
      RejectedRunOwesDash(w, y, b, d);
      RejectedRunOwesDash("-", y, b, d);
    }
    ScanAfter(x, w + y, "-" + y, "", false);
    assert x + w + y == x + (w + y) && x + "-" + y == x + ("-" + y);
  }

  lemma {:induction false} NothingOwedAtStart(y: string)
    ensures Scan(y, "", true) == Scan(y, "", false)
  {
  }

  /** At either end it is as good as nothing. */
  lemma EdgesAreDropped(w: string, y: string)
    requires Rejected(w)
    ensures Sanitized(w + y) == Sanitized(y) && Sanitized(y + w) == Sanitized(y)
  {
    if w == "" {
      assert w + y == y && y + w == y;
    } else {
      RejectedRunOwesDash(w, y, "", false);
      NothingOwedAtStart(y);
      forall b, d: bool | |b| < MAX_LENGTH ensures Scan(w, b, d) == Scan("", b, d) {
        RejectedRunOwesDash(w, "", b, d);
        assert w + "" == w;
      }
      ScanAfter(y, w, "", "", false);
      assert y + "" == y;
    }
  }

  lemma SanitizingTwiceIsOnce(value: string)
    ensures Sanitized(Sanitized(value)) == Sanitized(value)
  {
    SanitizedIsClean(value);
    FixedIffClean(Sanitized(value));
  }

  /** The 80 of the code is not the bound: 81 is reached. */
  lemma EightyOneIsReached()
    ensures exists value :: |Sanitized(value)| == 81
  {
    var value := seq(79, _ => 'a') + "-a";
    assert Clean(value);
    FixedIffClean(value);
  }

  // ---------- what is kept of the input ----------

  function KeptOnly(s: string): string {
    if s == "" then "" else (if Kept(s[0]) then [s[0]] else "") + KeptOnly(s[1..])
  }

  lemma {:induction false} KeptOfAppend(s: string, t: string)
    ensures KeptOnly(s + t) == KeptOnly(s) + KeptOnly(t)
  {
    if s == "" {
      assert s + t == t;
    } else {
      assert (s + t)[1..] == s[1..] + t;
      KeptOfAppend(s[1..], t);
      Associate(if Kept(s[0]) then [s[0]] else "", KeptOnly(s[1..]), KeptOnly(t));
    }
  }

  lemma ExtendedKeeps(built: string, pendingDash: bool, c: char)
    ensures KeptOnly(Extended(built, pendingDash, c)) == KeptOnly(built) + KeptOnly([c])
  {
    KeptOfAppend(built, [c]);
    KeptOfAppend(built + "-", [c]);
    KeptOfAppend(built, "-");
    assert KeptOnly("-") == "";
  }

  lemma KeptOfPrefix(value: string, n: nat)
    requires n < |value|
    ensures KeptOnly(value[..n + 1]) == KeptOnly([value[0]]) + KeptOnly(value[1..][..n])
  {
    assert value[..n + 1] == [value[0]] + value[1..][..n];
    KeptOfAppend([value[0]], value[1..][..n]);
  }

  lemma Associate(a: string, b: string, c: string)
    ensures (a + b) + c == a + (b + c)
  {
  }

  /** Scanning takes the kept characters of a prefix of the input, in order. */
  lemma {:induction false} ScanTakesPrefix(value: string, built: string, pendingDash: bool) returns (n: nat)
    ensures n <= |value| && KeptOnly(Scan(value, built, pendingDash)) == KeptOnly(built) + KeptOnly(value[..n])
    ensures |Scan(value, built, pendingDash)| < MAX_LENGTH ==> n == |value|
    decreases |value|
  {
    n := 0;
    if value != "" {
      var next := Extended(built, pendingDash, value[0]);
      ExtendedKeeps(built, pendingDash, value[0]);
      n := 1;
      assert value[..1] == [value[0]];
      if |next| < MAX_LENGTH {
        var rest := ScanTakesPrefix(value[1..], next, !Kept(value[0]));
        n := rest + 1;
        KeptOfPrefix(value, rest);
        Associate(KeptOnly(built), KeptOnly([value[0]]), KeptOnly(value[1..][..rest]));
      }
    }
  }

  /** Apart from dashes the result is a stretch of the input's kept characters,
      and when nothing is cut for length it only lacks punctuation at the ends. */
  lemma SanitizedKeepsOrder(value: string)
    ensures exists before, after, n: nat ::
              n <= |value| && KeptOnly(value[..n]) == KeptOnly(before) + KeptOnly(Sanitized(value)) + KeptOnly(after)
              && (forall c | c in before || c in after :: Punctuation(c))
              && (|Scan(value, "", false)| < MAX_LENGTH ==> n == |value|)
  {
    var s := Scan(value, "", false);
    var n := ScanTakesPrefix(value, "", false);
    var i := TrimmedLeft(s);
    var j := TrimmedRight(s[i..]);
    var before, rest := s[..i], s[i..];
    var after := rest[j..];
    assert s == before + rest;
    assert Sanitized(value) == rest[..j];
    assert rest == rest[..j] + rest[j..];
    KeptOfAppend(before, rest);
    KeptOfAppend(Sanitized(value), after);
    Associate(KeptOnly(before), KeptOnly(Sanitized(value)), KeptOnly(after));
    assert KeptOnly(value[..n]) == KeptOnly(before) + KeptOnly(Sanitized(value)) + KeptOnly(after);
  }

  lemma {:induction false} TrimmedLeft(s: string) returns (k: nat)
    ensures k <= |s| && TrimLeft(s) == s[k..] && forall c | c in s[..k] :: Punctuation(c)
  {
    k := 0;
    if s != "" && Punctuation(s[0]) {
      var rest := TrimmedLeft(s[1..]);
      k := rest + 1;
      assert s[..k] == [s[0]] + s[1..][..rest];
    }
  }

  lemma {:induction false} TrimmedRight(s: string) returns (k: nat)
    ensures k <= |s| && TrimRight(s) == s[..k] && forall c | c in s[k..] :: Punctuation(c)
  {
    k := |s|;
    if s != "" && Punctuation(s[|s| - 1]) {
      var init := s[..|s| - 1];
      k := TrimmedRight(init);
      assert TrimRight(s) == init[..k] == s[..k];
      forall c | c in s[k..] ensures Punctuation(c) { assert c in init[k..] || c == s[|s| - 1]; }
    }
  }
}
