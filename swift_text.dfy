/**
 * The Swift and Foundation primitives the app's logic is built from, stated
 * over `string` = `seq<char>`: the failable `Int(String)` initialiser,
 * decimal interpolation `"\(n)"`, truncating `/` and `%`, `range(of:)` and
 * `contains`, `replacingOccurrences(of:with: "")`,
 * `trimmingCharacters(in: .whitespaces)`, `components(separatedBy:)` and
 * `compactMap { Int($0) }`.
 */
module SwiftText {

  datatype Option<T> = None | Some(value: T)

  // ---------------------------------------------------------------------
  // Swift `Int` is 64 bits wide; `Int(String)` yields nil outside this range.

  const IntMin: int := -0x8000_0000_0000_0000
  const IntMax: int := 0x7FFF_FFFF_FFFF_FFFF

  predicate InIntRange(n: int) {
    IntMin <= n <= IntMax
  }

  predicate IsDigit(c: char) {
    '0' <= c <= '9'
  }

  predicate AllDigits(s: string) {
    forall i :: 0 <= i < |s| ==> IsDigit(s[i])
  }

  function DigitValue(c: char): (v: int)
    requires IsDigit(c)
    ensures 0 <= v <= 9
  {
    c as int - '0' as int
  }

  function DigitChar(d: int): (c: char)
    requires 0 <= d <= 9
    ensures IsDigit(c) && DigitValue(c) == d
  {
    ('0' as int + d) as char
  }

  /** The decimal value of a run of ASCII digits, most significant digit first. */
  function DigitsValue(s: string): (v: nat)
    requires AllDigits(s)
  {
    if |s| == 0 then 0 else DigitsValue(s[..|s| - 1]) * 10 + DigitValue(s[|s| - 1])
  }

  /**
   * Swift's `Int(_ description: String)`: an optional `+` or `-`, then a
   * non-empty run of ASCII digits, nothing else (no whitespace), and a value
   * that fits in 64 bits; anything else is nil.
   */
  function ParseInt(s: string): (r: Option<int>)
    ensures r.Some? ==> InIntRange(r.value)
    ensures r.Some? ==> |s| > 0 && exists k :: 0 <= k < |s| && IsDigit(s[k])
    ensures r.Some? ==> forall i :: 0 <= i < |s| ==> IsDigit(s[i]) || (i == 0 && (s[i] == '+' || s[i] == '-'))
    ensures |s| > 0 && AllDigits(s) ==>
              r == if InIntRange(DigitsValue(s)) then Some(DigitsValue(s)) else None
    ensures |s| > 1 && s[0] == '+' && AllDigits(s[1..]) ==>
              r == if InIntRange(DigitsValue(s[1..])) then Some(DigitsValue(s[1..])) else None
    ensures |s| > 1 && s[0] == '-' && AllDigits(s[1..]) ==>
              r == if InIntRange(-(DigitsValue(s[1..]) as int)) then Some(-(DigitsValue(s[1..]) as int)) else None
  {
    if |s| == 0 then None
    else
      var body := if s[0] == '+' || s[0] == '-' then s[1..] else s;
      if |body| == 0 || !AllDigits(body) then None
      else
        assert IsDigit(s[|s| - 1]);
        var v: int := if s[0] == '-' then -(DigitsValue(body) as int) else DigitsValue(body);
        if InIntRange(v) then Some(v) else None
  }

  // ---------------------------------------------------------------------
  // String interpolation of an Int, `"\(n)"`.

  /** Decimal digits of `n` without leading zeros. */
  function FormatNat(n: nat): (s: string)
    ensures |s| > 0 && AllDigits(s)
    ensures s[0] == '0' ==> n == 0
  {
    if n < 10 then [DigitChar(n)] else FormatNat(n / 10) + [DigitChar(n % 10)]
  }

  function FormatInt(n: int): (s: string)
    ensures |s| > 0
    ensures (n < 0) == (s[0] == '-')
    ensures forall i :: 0 <= i < |s| ==> IsDigit(s[i]) || (i == 0 && s[i] == '-')
  {
    if n < 0 then "-" + FormatNat(-n) else FormatNat(n)
  }

  lemma {:induction false} FormatNatValue(n: nat)
    ensures DigitsValue(FormatNat(n)) == n
  {
    var s := FormatNat(n);
    if n >= 10 {
      FormatNatValue(n / 10);
      assert s[..|s| - 1] == FormatNat(n / 10);
    }
  }

  /** `Int("\(n)") == n` for every 64-bit `n`. */
  lemma ParseFormatRoundTrip(n: int)
    requires InIntRange(n)
    ensures ParseInt(FormatInt(n)) == Some(n)
  {
    if n < 0 {
      FormatNatValue(-n);
      var s := FormatInt(n);
      assert s[1..] == FormatNat(-n);
    } else {
      FormatNatValue(n);
    }
  }

  // ---------------------------------------------------------------------
  // Swift's `/` and `%` on Int truncate toward zero. Every divisor in the
  // app is a positive constant.

  function SwiftDiv(a: int, b: int): (q: int)
    requires b > 0
    ensures a >= 0 ==> q * b <= a < q * b + b
    ensures a < 0 ==> q * b - b < a <= q * b
  {
    if a >= 0 then a / b else -((-a) / b)
  }

  function SwiftRem(a: int, b: int): (r: int)
    requires b > 0
    ensures SwiftDiv(a, b) * b + r == a
    ensures -b < r < b
    ensures a >= 0 ==> r >= 0
    ensures a <= 0 ==> r <= 0
  {
    a - SwiftDiv(a, b) * b
  }

  // ---------------------------------------------------------------------
  // Substring search, `range(of:)` and `contains`.

  predicate OccursAt(s: string, pat: string, i: nat) {
    i + |pat| <= |s| && s[i..i + |pat|] == pat
  }

  function FindFrom(s: string, pat: string, from: nat): (r: Option<nat>)
    requires from <= |s|
    ensures r.Some? ==> from <= r.value && OccursAt(s, pat, r.value)
    ensures r.Some? ==> forall j :: from <= j < r.value ==> !OccursAt(s, pat, j)
    ensures r.None? ==> forall j :: from <= j <= |s| ==> !OccursAt(s, pat, j)
    decreases |s| - from
  {
    if OccursAt(s, pat, from) then Some(from)
    else if from == |s| then None
    else FindFrom(s, pat, from + 1)
  }

  /** The start of the first occurrence of `pat` in `s`, as `range(of:)` finds it. */
  function FindFirst(s: string, pat: string): (r: Option<nat>)
    ensures r.Some? ==> OccursAt(s, pat, r.value)
    ensures r.Some? ==> forall j :: 0 <= j < r.value ==> !OccursAt(s, pat, j)
    ensures r.None? ==> forall j :: 0 <= j <= |s| ==> !OccursAt(s, pat, j)
  {
    FindFrom(s, pat, 0)
  }

  predicate Contains(s: string, pat: string) {
    FindFirst(s, pat).Some?
  }

  // ---------------------------------------------------------------------
  // `replacingOccurrences(of: pat, with: "")`: deletes the non-overlapping
  // occurrences of `pat` found scanning left to right.

  function RemoveAll(s: string, pat: string): (r: string)
    requires |pat| > 0
    ensures |r| <= |s|
    ensures forall c :: c in r ==> c in s
    ensures |pat| == 1 ==> pat[0] !in r
    ensures |s| == 1 ==> r == if s == pat then "" else s
    decreases |s|
  {
    if |s| < |pat| then s
    else if s[..|pat|] == pat then RemoveAll(s[|pat|..], pat)
    else [s[0]] + RemoveAll(s[1..], pat)
  }

  /** Removing a pattern that does not occur leaves the text as it was. */
  lemma {:induction false} RemoveAbsent(s: string, pat: string)
    requires |pat| > 0
    requires forall j :: 0 <= j <= |s| ==> !OccursAt(s, pat, j)
    ensures RemoveAll(s, pat) == s
    decreases |s|
  {
    if |s| >= |pat| {
      assert !OccursAt(s, pat, 0);
      assert s[..|pat|] != pat;
      forall j | 0 <= j <= |s[1..]|
        ensures !OccursAt(s[1..], pat, j)
      {
        assert !OccursAt(s, pat, j + 1);
        if j + |pat| <= |s[1..]| {
          assert s[1..][j..j + |pat|] == s[j + 1..j + 1 + |pat|];
        }
      }
      RemoveAbsent(s[1..], pat);
    }
  }

  /** A text in which no occurrence of `pat` starts is kept in front of what follows it. */
  lemma {:induction false} RemoveAllKeepsPrefix(d: string, t: string, pat: string)
    requires |pat| > 0
    requires forall j :: 0 <= j < |d| ==> !OccursAt(d + t, pat, j)
    ensures RemoveAll(d + t, pat) == d + RemoveAll(t, pat)
    decreases |d|
  {
    if |d| == 0 {
      assert d + t == t;
    } else if |d + t| < |pat| {
      assert RemoveAll(t, pat) == t;
    } else {
      var s := d + t;
      assert !OccursAt(s, pat, 0);
      NoOccurrenceInTail(d, t, pat);
      RemoveAllKeepsPrefix(d[1..], t, pat);
      assert s[1..] == d[1..] + t;
      assert [d[0]] + d[1..] == d;
    }
  }

  lemma NoOccurrenceInTail(d: string, t: string, pat: string)
    requires |d| > 0
    requires forall j :: 0 <= j < |d| ==> !OccursAt(d + t, pat, j)
    ensures forall j :: 0 <= j < |d| - 1 ==> !OccursAt(d[1..] + t, pat, j)
  {
    var s := d + t;
    assert s[1..] == d[1..] + t;
    forall j | 0 <= j < |d| - 1
      ensures !OccursAt(d[1..] + t, pat, j)
    {
      assert !OccursAt(s, pat, j + 1);
      if j + |pat| <= |s[1..]| {
        assert s[1..][j..j + |pat|] == s[j + 1..j + 1 + |pat|];
      }
    }
  }

  /**
   * The scan deletes the first occurrence of `pat` and carries on after it:
   * the text before it is kept as it is.
   */
  lemma RemoveFirstOccurrence(d: string, t: string, pat: string)
    requires |pat| > 0
    requires forall j :: 0 <= j < |d| ==> !OccursAt(d + pat + t, pat, j)
    ensures RemoveAll(d + pat + t, pat) == d + RemoveAll(t, pat)
  {
    assert d + pat + t == d + (pat + t);
    RemoveAllKeepsPrefix(d, pat + t, pat);
    assert (pat + t)[..|pat|] == pat;
    assert (pat + t)[|pat|..] == t;
  }

  /** Removing one character works piece by piece: every other character stays, in order. */
  lemma {:induction false} RemoveCharAppend(a: string, b: string, pat: string)
    requires |pat| == 1
    ensures RemoveAll(a + b, pat) == RemoveAll(a, pat) + RemoveAll(b, pat)
    decreases |a|
  {
    if |a| > 0 {
      var s := a + b;
      assert s[..1] == a[..1] && s[1..] == a[1..] + b;
      RemoveCharAppend(a[1..], b, pat);
    } else {
      assert a + b == b;
    }
  }

  /**
   * When the last character of `pat` occurs neither in `d` nor earlier in
   * `pat`, the only occurrence of `pat` in `d + pat` is the one at the end.
   */
  lemma LastCharBlocksEarlierOccurrence(d: string, pat: string)
    requires |pat| > 0 && pat[|pat| - 1] !in d
    requires forall i :: 0 <= i < |pat| - 1 ==> pat[i] != pat[|pat| - 1]
    ensures forall j :: 0 <= j < |d| ==> !OccursAt(d + pat, pat, j)
  {
    var s := d + pat;
    forall j | 0 <= j < |d| ensures !OccursAt(s, pat, j) {
      var k := j + |pat| - 1;
      if k < |d| {
        assert s[k] == d[k];
      } else {
        assert s[k] == pat[k - |d|];
      }
      assert s[j..j + |pat|][|pat| - 1] == s[k];
    }
  }

  /** A character that does not occur is removed from nowhere. */
  lemma RemoveAbsentChar(s: string, pat: string)
    requires |pat| == 1 && pat[0] !in s
    ensures RemoveAll(s, pat) == s
  {
    forall j | 0 <= j <= |s| ensures !OccursAt(s, pat, j) {
      if j < |s| {
        assert s[j..j + 1][0] == s[j];
      }
    }
    RemoveAbsent(s, pat);
  }

  // ---------------------------------------------------------------------
  // `trimmingCharacters(in: .whitespaces)`: the set is CHARACTER TABULATION
  // and the Unicode general category Zs.

  predicate IsWhitespace(c: char) {
    || c == '\t' || c == ' ' || c == '\U{00A0}' || c == '\U{1680}'
    || ('\U{2000}' <= c <= '\U{200A}')
    || c == '\U{202F}' || c == '\U{205F}' || c == '\U{3000}'
  }

  /** The number of leading whitespace characters of `s`. */
  function LeadingWhitespace(s: string): (n: nat)
    ensures n <= |s|
    ensures n < |s| ==> !IsWhitespace(s[n])
  {
    if |s| > 0 && IsWhitespace(s[0]) then 1 + LeadingWhitespace(s[1..]) else 0
  }

  lemma {:induction false} LeadingAreWhitespace(s: string, k: int)
    requires 0 <= k < LeadingWhitespace(s)
    ensures IsWhitespace(s[k])
  {
    if k > 0 {
      LeadingAreWhitespace(s[1..], k - 1);
    }
  }

  /** A text of whitespace only is whitespace up to its end. */
  lemma {:induction false} LeadingWhitespaceOfBlank(s: string)
    requires forall k :: 0 <= k < |s| ==> IsWhitespace(s[k])
    ensures LeadingWhitespace(s) == |s|
  {
    if |s| > 0 {
      var t := s[1..];
      assert forall k :: 0 <= k < |t| ==> t[k] == s[k + 1];
      LeadingWhitespaceOfBlank(t);
    }
  }

  /** The number of trailing whitespace characters of `s`. */
  function TrailingWhitespace(s: string): (n: nat)
    ensures n <= |s|
    ensures n < |s| ==> !IsWhitespace(s[|s| - n - 1])
  {
    if |s| > 0 && IsWhitespace(s[|s| - 1]) then 1 + TrailingWhitespace(s[..|s| - 1]) else 0
  }

  lemma {:induction false} TrailingAreWhitespace(s: string, k: int)
    requires |s| - TrailingWhitespace(s) <= k < |s|
    ensures IsWhitespace(s[k])
  {
    if k < |s| - 1 {
      TrailingAreWhitespace(s[..|s| - 1], k);
    }
  }

  /** `trimmingCharacters(in: .whitespaces)`: drops whitespace at both ends. */
  function Trim(s: string): (r: string)
    ensures |r| <= |s|
  {
    var t := s[LeadingWhitespace(s)..];
    t[..|t| - TrailingWhitespace(t)]
  }

  /** The trimmed text neither starts nor ends with whitespace. */
  lemma TrimEnds(s: string)
    ensures |Trim(s)| > 0 ==> !IsWhitespace(Trim(s)[0]) && !IsWhitespace(Trim(s)[|Trim(s)| - 1])
  {
    var n := LeadingWhitespace(s);
    var t := s[n..];
    var m := TrailingWhitespace(t);
    var r := t[..|t| - m];
    assert Trim(s) == r;
    if |r| > 0 {
      assert r[0] == s[n];
      assert r[|r| - 1] == t[|t| - m - 1];
    }
  }

  /** The trimmed text holds only characters of `s`. */
  lemma TrimChars(s: string)
    ensures forall c :: c in Trim(s) ==> c in s
  {
    var n := LeadingWhitespace(s);
    var t := s[n..];
    var m := TrailingWhitespace(t);
    assert Trim(s) == s[n..n + (|t| - m)];
    SliceChars(s, n, n + (|t| - m));
  }

  /** A text of whitespace only trims to the empty text. */
  lemma TrimBlank(s: string)
    requires forall k :: 0 <= k < |s| ==> IsWhitespace(s[k])
    ensures Trim(s) == []
  {
    LeadingWhitespaceOfBlank(s);
  }

  /** A text without whitespace at either end is left as it is. */
  lemma TrimUnchanged(s: string)
    requires |s| > 0 && !IsWhitespace(s[0]) && !IsWhitespace(s[|s| - 1])
    ensures Trim(s) == s
  {
    assert LeadingWhitespace(s) == 0;
    assert s[0..] == s;
  }

  /**
   * Trimming cuts whitespace only: the text is its leading whitespace, the
   * trimmed text, and whitespace.
   */
  lemma TrimCutsWhitespace(s: string)
    ensures var n := LeadingWhitespace(s);
            && n + |Trim(s)| <= |s|
            && s == s[..n] + Trim(s) + s[n + |Trim(s)|..]
            && (forall k :: 0 <= k < n ==> IsWhitespace(s[k]))
            && (forall k :: n + |Trim(s)| <= k < |s| ==> IsWhitespace(s[k]))
  {
    var n := LeadingWhitespace(s);
    var t := s[n..];
    var m := TrailingWhitespace(t);
    var e := n + (|t| - m);
    assert Trim(s) == s[n..e];
    assert s == s[..n] + s[n..e] + s[e..];
    forall k | 0 <= k < n ensures IsWhitespace(s[k]) {
      LeadingAreWhitespace(s, k);
    }
    forall k | e <= k < |s| ensures IsWhitespace(s[k]) {
      TrailingAreWhitespace(t, k - n);
      assert s[k] == t[k - n];
    }
  }

  /** Trimming twice trims no more. */
  lemma TrimIdempotent(s: string)
    ensures Trim(Trim(s)) == Trim(s)
  {
    TrimEnds(s);
    if |Trim(s)| > 0 {
      TrimUnchanged(Trim(s));
    }
  }

  lemma SliceChars(s: string, i: nat, j: nat)
    requires i <= j <= |s|
    ensures forall c :: c in s[i..j] ==> c in s
  {
    forall c | c in s[i..j] ensures c in s {
      var k :| 0 <= k < j - i && s[i..j][k] == c;
      assert s[i + k] == c;
    }
  }

  // ---------------------------------------------------------------------
  // `components(separatedBy: String(sep))`: cuts at every occurrence of
  // `sep`, so neighbouring separators give empty parts.

  function Split(s: string, sep: char): (parts: seq<string>)
    ensures |parts| >= 1
    ensures forall k :: 0 <= k < |parts| ==> sep !in parts[k]
  {
    if |s| == 0 then [""]
    else
      var rest := Split(s[1..], sep);
      if s[0] == sep then [""] + rest
      else [[s[0]] + rest[0]] + rest[1..]
  }

  /** `joined(separator:)`, the inverse of Split. */
  function Join(parts: seq<string>, sep: char): string {
    if |parts| == 0 then ""
    else if |parts| == 1 then parts[0]
    else parts[0] + [sep] + Join(parts[1..], sep)
  }

  lemma {:induction false} JoinSplit(s: string, sep: char)
    ensures Join(Split(s, sep), sep) == s
  {
    if |s| > 0 {
      JoinSplit(s[1..], sep);
      var rest := Split(s[1..], sep);
      if s[0] != sep {
        if |rest| > 1 {
          assert ([[s[0]] + rest[0]] + rest[1..])[1..] == rest[1..];
        }
      }
    }
  }

  /** One more part than there are separators. */
  lemma {:induction false} SplitCount(s: string, sep: char)
    ensures |Split(s, sep)| == multiset(s)[sep] + 1
  {
    if |s| > 0 {
      SplitCount(s[1..], sep);
      assert s == [s[0]] + s[1..];
      assert multiset(s) == multiset{s[0]} + multiset(s[1..]);
    }
  }

  // ---------------------------------------------------------------------

  /** `reversed()`. */
  function Reversed<T>(s: seq<T>): (r: seq<T>)
    ensures |r| == |s|
  {
    if |s| == 0 then [] else [s[|s| - 1]] + Reversed(s[..|s| - 1])
  }

  lemma {:induction false} ReversedIndex<T>(s: seq<T>)
    ensures forall k :: 0 <= k < |s| ==> Reversed(s)[k] == s[|s| - 1 - k]
  {
    if |s| > 0 {
      ReversedIndex(s[..|s| - 1]);
    }
  }

  // ---------------------------------------------------------------------

  /** `filter { $0.isNumber }`, restricted to ASCII digits. */
  function Digits(s: string): (r: string)
    ensures AllDigits(r) && |r| <= |s|
    ensures AllDigits(s) ==> r == s
    ensures forall c :: c in s && IsDigit(c) ==> c in r
    ensures |s| == 1 ==> r == if IsDigit(s[0]) then s else ""
  {
    if |s| == 0 then ""
    else if IsDigit(s[0]) then [s[0]] + Digits(s[1..])
    else Digits(s[1..])
  }

  /** Filtering works piece by piece: the digits of `a + b` are those of `a`, then those of `b`. */
  lemma {:induction false} DigitsAppend(a: string, b: string)
    ensures Digits(a + b) == Digits(a) + Digits(b)
    decreases |a|
  {
    if |a| > 0 {
      assert (a + b)[0] == a[0] && (a + b)[1..] == a[1..] + b;
      DigitsAppend(a[1..], b);
    } else {
      assert a + b == b;
    }
  }

  /** `compactMap { Int($0) }`: the values of the texts that parse, in order. */
  function ParseInts(texts: seq<string>): (r: seq<int>)
    ensures |r| <= |texts|
    ensures forall k :: 0 <= k < |r| ==> InIntRange(r[k])
    ensures forall k :: 0 <= k < |r| ==> exists j :: 0 <= j < |texts| && ParseInt(texts[j]) == Some(r[k])
    ensures |texts| == 1 ==> r == match ParseInt(texts[0]) case Some(v) => [v] case None => []
  {
    if |texts| == 0 then []
    else
      var rest := ParseInts(texts[1..]);
      match ParseInt(texts[0])
      case Some(v) => [v] + rest
      case None => rest
  }

  /**
   * The texts are read one by one: the values of `a + b` are those of `a`,
   * then those of `b`; with the one-text case this fixes which texts are
   * skipped and keeps the order of the rest.
   */
  lemma {:induction false} ParseIntsAppend(a: seq<string>, b: seq<string>)
    ensures ParseInts(a + b) == ParseInts(a) + ParseInts(b)
    decreases |a|
  {
    if |a| > 0 {
      assert (a + b)[0] == a[0] && (a + b)[1..] == a[1..] + b;
      ParseIntsAppend(a[1..], b);
    } else {
      assert a + b == b;
    }
  }

  /** An unreadable text drops out and the texts around it are read as before. */
  lemma ParseIntsSkips(texts: seq<string>, j: nat)
    requires j < |texts| && ParseInt(texts[j]).None?
    ensures ParseInts(texts) == ParseInts(texts[..j]) + ParseInts(texts[j + 1..])
  {
    assert texts == texts[..j] + ([texts[j]] + texts[j + 1..]);
    ParseIntsAppend(texts[..j], [texts[j]] + texts[j + 1..]);
    ParseIntsAppend([texts[j]], texts[j + 1..]);
  }

  /** When every text parses, nothing is dropped and the order is kept. */
  lemma {:induction false} ParseIntsAllParse(texts: seq<string>)
    requires forall j :: 0 <= j < |texts| ==> ParseInt(texts[j]).Some?
    ensures |ParseInts(texts)| == |texts|
    ensures forall j :: 0 <= j < |texts| ==> ParseInts(texts)[j] == ParseInt(texts[j]).value
  {
    if |texts| > 0 {
      ParseIntsAllParse(texts[1..]);
    }
  }
}
