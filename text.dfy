/** The JavaScript string operations the core relies on, written out on `seq<char>`. */
module Text {

  /** `s.startsWith(prefix)` */
  predicate StartsWith(s: string, prefix: string) {
    |prefix| <= |s| && s[..|prefix|] == prefix
  }

  /** `s.endsWith(suffix)` */
  predicate EndsWith(s: string, suffix: string) {
    |suffix| <= |s| && s[|s| - |suffix|..] == suffix
  }

  /** `s.includes(sub)`: some position of `s` starts a copy of `sub`. */
  predicate Contains(s: string, sub: string)
    decreases |s|
  {
    StartsWith(s, sub) || (|s| > 0 && Contains(s[1..], sub))
  }

  lemma {:induction false} ContainsInMiddle(a: string, sub: string, b: string)
    ensures Contains(a + sub + b, sub)
    decreases |a|
  {
    if a == [] {
      assert (a + sub + b)[..|sub|] == sub;
    } else {
      assert (a + sub + b)[1..] == a[1..] + sub + b;
      ContainsInMiddle(a[1..], sub, b);
    }
  }

  // ---------------------------------------------------------------------------
  // Case

  /** Lower-casing of one character; only the ASCII letters are mapped. */
  function LowerChar(c: char): char {
    if 'A' <= c <= 'Z' then (c as int + 32) as char else c
  }

  /** `s.toLowerCase()` restricted to ASCII letters. */
  function ToLower(s: string): (r: string)
    ensures |r| == |s|
    ensures forall i :: 0 <= i < |r| ==> !('A' <= r[i] <= 'Z')
    ensures forall i :: 0 <= i < |r| && !('A' <= s[i] <= 'Z') ==> r[i] == s[i]
  {
    seq(|s|, i requires 0 <= i < |s| => LowerChar(s[i]))
  }

  lemma ToLowerIdempotent(s: string)
    ensures ToLower(ToLower(s)) == ToLower(s)
  {
  }

  // ---------------------------------------------------------------------------
  // Trimming

  /** The characters `String.prototype.trim` removes: white space (Zs and the
      listed format characters) and line terminators, per ECMAScript. */
  predicate IsWhiteSpace(c: char) {
    c == '\t' || c == '\n' || c == '\U{B}' || c == '\U{C}' || c == '\r' || c == ' '
    || c == '\U{A0}' || c == '\U{1680}' || ('\U{2000}' <= c <= '\U{200A}')
    || c == '\U{2028}' || c == '\U{2029}' || c == '\U{202F}' || c == '\U{205F}'
    || c == '\U{3000}' || c == '\U{FEFF}'
  }

  predicate Blank(s: string) {
    forall i :: 0 <= i < |s| ==> IsWhiteSpace(s[i])
  }

  function TrimStart(s: string): (r: string)
    ensures |r| <= |s| && r == s[|s| - |r|..]
    ensures r == [] || !IsWhiteSpace(r[0])
    ensures Blank(s[..|s| - |r|])
    decreases |s|
  {
    if |s| > 0 && IsWhiteSpace(s[0]) then
      var r := TrimStart(s[1..]);
      assert s[1..][..|s| - 1 - |r|] == s[1..|s| - |r|];
      r
    else s
  }

  function TrimEnd(s: string): (r: string)
    ensures |r| <= |s| && r == s[..|r|]
    ensures r == [] || !IsWhiteSpace(r[|r| - 1])
    ensures Blank(s[|r|..])
    decreases |s|
  {
    if |s| > 0 && IsWhiteSpace(s[|s| - 1]) then
      var init := s[..|s| - 1];
      var r := TrimEnd(init);
      assert s[..|r|] == init[..|r|];
      assert s[|r|..] == init[|r|..] + [s[|s| - 1]];
      r
    else s
  }

  /** `s.trim()`: the longest infix of `s` that neither starts nor ends with white space. */
  function Trim(s: string): (r: string)
    ensures |r| <= |s|
    ensures r == [] || (!IsWhiteSpace(r[0]) && !IsWhiteSpace(r[|r| - 1]))
    ensures r == [] <==> Blank(s)
  {
    var t := TrimStart(s);
    var r := TrimEnd(t);
    assert r != [] ==> r[0] == t[0];
    assert t != [] ==> s[|s| - |t|] == t[0];
    assert t == [] ==> s[..|s| - |t|] == s;
    r
  }

  /** What `trim` leaves is the infix of `s` between two blank margins (see `TrimUnique`
      for the converse). */
  lemma TrimIsInfix(s: string)
    ensures var r := Trim(s);
            exists k :: 0 <= k <= |s| - |r| && r == s[k..k + |r|] && Blank(s[..k]) && Blank(s[k + |r|..])
  {
    var k := TrimOffset(s);
  }

  /** The length of the blank margin `trim` removes in front. */
  lemma TrimOffset(s: string) returns (k: nat)
    ensures var r := Trim(s);
            k + |r| <= |s| && r == s[k..k + |r|] && Blank(s[..k]) && Blank(s[k + |r|..])
  {
    var t := TrimStart(s);
    var r := TrimEnd(t);
    k := |s| - |t|;
    assert r == s[k..k + |r|];
    assert s[k + |r|..] == t[|r|..];
  }

  /** Any infix between blank margins that neither starts nor ends with white space is the
      trim: the contract of `Trim` with `TrimIsInfix` determines it. */
  lemma TrimUnique(s: string, r: string, k: nat)
    requires k + |r| <= |s| && r == s[k..k + |r|] && Blank(s[..k]) && Blank(s[k + |r|..])
    requires r == [] || (!IsWhiteSpace(r[0]) && !IsWhiteSpace(r[|r| - 1]))
    ensures r == Trim(s)
  {
    var r0 := Trim(s);
    var k0 := TrimOffset(s);
    if r == [] {
      BlankMargins(s, k);
    } else {
      assert s[k] == r[0];
      NotBlankAt(s, k);
      SameInfix(s, r, k, r0, k0);
    }
  }

  lemma NotBlankAt(s: string, k: nat)
    requires k < |s| && !IsWhiteSpace(s[k])
    ensures !Blank(s)
  {
  }

  lemma BlankMargins(s: string, k: nat)
    requires k <= |s| && Blank(s[..k]) && Blank(s[k..])
    ensures Blank(s)
  {
    BlankPrefix(s, k);
    BlankSuffix(s, k);
  }

  lemma BlankPrefix(s: string, k: nat)
    requires k <= |s| && Blank(s[..k])
    ensures forall j :: 0 <= j < k ==> IsWhiteSpace(s[j])
  {
    forall j | 0 <= j < k ensures IsWhiteSpace(s[j]) {
      assert s[..k][j] == s[j];
    }
  }

  lemma BlankSuffix(s: string, e: nat)
    requires e <= |s| && Blank(s[e..])
    ensures forall j :: e <= j < |s| ==> IsWhiteSpace(s[j])
  {
    forall j | e <= j < |s| ensures IsWhiteSpace(s[j]) {
      assert s[e..][j - e] == s[j];
    }
  }

  /** Two non-empty infixes between blank margins whose ends are not white space coincide. */
  lemma SameInfix(s: string, r: string, k: nat, r0: string, k0: nat)
    requires k + |r| <= |s| && r == s[k..k + |r|] && Blank(s[..k]) && Blank(s[k + |r|..])
    requires k0 + |r0| <= |s| && r0 == s[k0..k0 + |r0|] && Blank(s[..k0]) && Blank(s[k0 + |r0|..])
    requires r != [] && !IsWhiteSpace(r[0]) && !IsWhiteSpace(r[|r| - 1])
    requires r0 != [] && !IsWhiteSpace(r0[0]) && !IsWhiteSpace(r0[|r0| - 1])
    ensures r == r0
  {
    assert s[k] == r[0] && s[k + |r| - 1] == r[|r| - 1];
    assert s[k0] == r0[0] && s[k0 + |r0| - 1] == r0[|r0| - 1];
    BlankPrefix(s, k);
    BlankPrefix(s, k0);
    BlankSuffix(s, k + |r|);
    BlankSuffix(s, k0 + |r0|);
  }

  /** A string that neither starts nor ends with white space is its own trim. */
  lemma TrimUnchanged(s: string)
    requires s == [] || (!IsWhiteSpace(s[0]) && !IsWhiteSpace(s[|s| - 1]))
    ensures Trim(s) == s
  {
    assert TrimStart(s) == s;
    assert TrimEnd(s) == s;
  }

  // ---------------------------------------------------------------------------
  // Digits and decimal rendering

  predicate IsDigit(c: char) {
    '0' <= c <= '9'
  }

  predicate Digits(s: string) {
    forall i :: 0 <= i < |s| ==> IsDigit(s[i])
  }

  /** The regular expression `^\d+$`: one or more ASCII digits and nothing else. */
  predicate AllDigits(s: string) {
    |s| > 0 && Digits(s)
  }

  function DigitChar(d: nat): (c: char)
    requires d < 10
    ensures IsDigit(c) && c as int - '0' as int == d
  {
    ('0' as int + d) as char
  }

  /** `n.toString()` for a non-negative integer. */
  function DecimalString(n: nat): (r: string)
    ensures AllDigits(r)
    decreases n
  {
    if n < 10 then [DigitChar(n)] else DecimalString(n / 10) + [DigitChar(n % 10)]
  }

  /** The value of a string of decimal digits. */
  function DecimalValue(s: string): nat
    requires Digits(s)
  {
    if s == [] then 0 else 10 * DecimalValue(s[..|s| - 1]) + (s[|s| - 1] as int - '0' as int)
  }

  lemma {:induction false} DecimalRoundTrip(n: nat)
    ensures DecimalValue(DecimalString(n)) == n
    decreases n
  {
    var s := DecimalString(n);
    if n >= 10 {
      assert s[..|s| - 1] == DecimalString(n / 10);
      DecimalRoundTrip(n / 10);
    }
  }

  /** `i.toString()` for any integer. */
  function IntString(i: int): (r: string)
    ensures |r| > 0
    ensures i >= 0 <==> AllDigits(r)
  {
    if i < 0 then
      var r := "-" + DecimalString(-i);
      assert !IsDigit(r[0]);
      r
    else DecimalString(i)
  }

  // ---------------------------------------------------------------------------
  // Splitting

  function Occurrences(s: string, c: char): nat {
    if s == [] then 0 else (if s[0] == c then 1 else 0) + Occurrences(s[1..], c)
  }

  /** `s.split(sep)` for a one-character separator: the pieces between separators, empty ones included. */
  function Split(s: string, sep: char): (parts: seq<string>)
    ensures |parts| == Occurrences(s, sep) + 1
    ensures forall i :: 0 <= i < |parts| ==> sep !in parts[i]
    decreases |s|
  {
    if s == [] then [""]
    else
      var rest := Split(s[1..], sep);
      if s[0] == sep then [""] + rest
      else [[s[0]] + rest[0]] + rest[1..]
  }

  /** `parts.join(sep)` */
  function Join(parts: seq<string>, sep: char): string
    requires |parts| > 0
  {
    if |parts| == 1 then parts[0] else parts[0] + [sep] + Join(parts[1..], sep)
  }

  /** Splitting loses nothing: joining the pieces gives the string back. */
  lemma {:induction false} JoinSplit(s: string, sep: char)
    ensures Join(Split(s, sep), sep) == s
    decreases |s|
  {
    if s != [] {
      JoinSplit(s[1..], sep);
      var rest := Split(s[1..], sep);
      if s[0] == sep {
        assert ([""] + rest)[1..] == rest;
      } else {
        var parts := [[s[0]] + rest[0]] + rest[1..];
        if |rest| > 1 {
          assert parts[1..] == rest[1..];
          assert Join(rest, sep) == rest[0] + [sep] + Join(rest[1..], sep);
        }
      }
    }
  }

  /** A separator-free prefix followed by a separator becomes the first piece. */
  lemma {:induction false} SplitAfterPiece(a: string, sep: char, b: string)
    requires sep !in a
    ensures Split(a + [sep] + b, sep) == [a] + Split(b, sep)
    decreases |a|
  {
    if a == [] {
      assert a + [sep] + b == [sep] + b;
      assert ([sep] + b)[1..] == b;
    } else {
      assert (a + [sep] + b)[1..] == a[1..] + [sep] + b;
      SplitAfterPiece(a[1..], sep, b);
      assert [a[0]] + a[1..] == a;
    }
  }

  /** A separator-free string is a single piece. */
  lemma {:induction false} SplitWhole(a: string, sep: char)
    requires sep !in a
    ensures Split(a, sep) == [a]
    decreases |a|
  {
    if a != [] {
      SplitWhole(a[1..], sep);
      assert [a[0]] + a[1..] == a;
    }
  }
}
