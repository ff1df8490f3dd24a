/**
 * String helpers with JavaScript's meaning: ASCII case mapping, `split` on one
 * character, `trim`, substring search and the decimal rendering of a natural number.
 */
module Strings {

  predicate IsLowerAscii(c: char) { 'a' <= c <= 'z' }
  predicate IsUpperAscii(c: char) { 'A' <= c <= 'Z' }

  function UpperChar(c: char): char {
    if IsLowerAscii(c) then (c as int - 32) as char else c
  }

  function LowerChar(c: char): char {
    if IsUpperAscii(c) then (c as int + 32) as char else c
  }

  /** `s.toUpperCase()` on the ASCII letters. */
  function Upper(s: string): (r: string)
    ensures |r| == |s|
    ensures forall i :: 0 <= i < |s| ==> r[i] == UpperChar(s[i])
  {
    seq(|s|, i requires 0 <= i < |s| => UpperChar(s[i]))
  }

  /** `s.toLowerCase()` on the ASCII letters. */
  function Lower(s: string): (r: string)
    ensures |r| == |s|
    ensures forall i :: 0 <= i < |s| ==> r[i] == LowerChar(s[i])
  {
    seq(|s|, i requires 0 <= i < |s| => LowerChar(s[i]))
  }

  predicate IsUpper(s: string) {
    forall i :: 0 <= i < |s| ==> !IsLowerAscii(s[i])
  }

  predicate IsLower(s: string) {
    forall i :: 0 <= i < |s| ==> !IsUpperAscii(s[i])
  }

  lemma UpperIsUpper(s: string)
    ensures IsUpper(Upper(s)) && Upper(Upper(s)) == Upper(s)
  {
  }

  lemma LowerIsLower(s: string)
    ensures IsLower(Lower(s))
  {
  }

  /** Upper-casing leaves every non-letter character, such as a delimiter, where it was. */
  lemma UpperKeepsChar(s: string, c: char)
    requires !IsLowerAscii(c) && !IsUpperAscii(c)
    ensures (c in Upper(s)) <==> (c in s)
  {
    if c in s {
      var i :| 0 <= i < |s| && s[i] == c;
      assert Upper(s)[i] == c;
    }
    if c in Upper(s) {
      var i :| 0 <= i < |s| && Upper(s)[i] == c;
      assert s[i] == c;
    }
  }

  /** `s.split(c)`: the pieces between occurrences of `c`; never empty. */
  function Split(s: string, c: char): (r: seq<string>)
    ensures |r| >= 1
    decreases |s|
  {
    if |s| == 0 then [""]
    else
      var rest := Split(s[1..], c);
      if s[0] == c then [""] + rest
      else [[s[0]] + rest[0]] + rest[1..]
  }

  /** Every character of a piece of `Split(s, c)` is a character of `s`. */
  lemma {:induction false} SplitPiecesFromString(s: string, c: char)
    ensures forall k, i :: 0 <= k < |Split(s, c)| && 0 <= i < |Split(s, c)[k]| ==> Split(s, c)[k][i] in s
    decreases |s|
  {
    if |s| > 0 {
      SplitPiecesFromString(s[1..], c);
      var rest := Split(s[1..], c);
      forall k, i | 0 <= k < |Split(s, c)| && 0 <= i < |Split(s, c)[k]|
        ensures Split(s, c)[k][i] in s
      {
        if s[0] == c {
          assert Split(s, c)[k] == ([""] + rest)[k];
          if k > 0 { assert Split(s, c)[k] == rest[k - 1]; assert rest[k - 1][i] in s[1..]; }
        } else if k == 0 {
          assert Split(s, c)[0] == [s[0]] + rest[0];
          if i > 0 { assert Split(s, c)[0][i] == rest[0][i - 1]; assert rest[0][i - 1] in s[1..]; }
        } else {
          assert Split(s, c)[k] == rest[k];
          assert rest[k][i] in s[1..];
        }
      }
    }
  }

  /** `parts.join([c])`. */
  function Join(parts: seq<string>, c: char): string
    requires |parts| >= 1
    decreases |parts|
  {
    if |parts| == 1 then parts[0] else parts[0] + [c] + Join(parts[1..], c)
  }

  /** Every character of `Join(parts, c)` is `c` or a character of a part. */
  lemma {:induction false} JoinChars(parts: seq<string>, c: char, ch: char)
    requires |parts| >= 1
    requires ch in Join(parts, c)
    ensures ch == c || exists k :: 0 <= k < |parts| && ch in parts[k]
    decreases |parts|
  {
    if |parts| > 1 {
      if ch !in parts[0] && ch != c {
        JoinChars(parts[1..], c, ch);
        var k :| 0 <= k < |parts[1..]| && ch in parts[1..][k];
        assert parts[k + 1] == parts[1..][k];
      }
    }
  }

  /** A join of two or more parts contains the separator. */
  lemma SepInJoin(parts: seq<string>, c: char)
    requires |parts| >= 2
    ensures c in Join(parts, c)
  {
    assert Join(parts, c)[|parts[0]|] == c;
  }

  lemma {:induction false} SplitPiecesAvoidSep(s: string, c: char)
    ensures forall k :: 0 <= k < |Split(s, c)| ==> c !in Split(s, c)[k]
    decreases |s|
  {
    if |s| > 0 {
      SplitPiecesAvoidSep(s[1..], c);
    }
  }

  lemma {:induction false} JoinSplit(s: string, c: char)
    ensures Join(Split(s, c), c) == s
    decreases |s|
  {
    if |s| > 0 {
      var rest := Split(s[1..], c);
      JoinSplit(s[1..], c);
      if s[0] == c {
        assert Split(s, c) == [""] + rest;
        assert ([""] + rest)[1..] == rest;
      } else {
        var r := Split(s, c);
        assert r == [[s[0]] + rest[0]] + rest[1..];
        if |rest| == 1 {
          assert Join(r, c) == [s[0]] + rest[0];
        } else {
          assert r[1..] == rest[1..];
          assert Join(rest, c) == rest[0] + [c] + Join(rest[1..], c);
        }
        assert s == [s[0]] + s[1..];
      }
    }
  }

  /** Splitting `a + [c] + b` where `a` has no `c` peels `a` off the front. */
  lemma {:induction false} SplitAfterPiece(a: string, b: string, c: char)
    requires c !in a
    ensures Split(a + [c] + b, c) == [a] + Split(b, c)
    decreases |a|
  {
    if |a| == 0 {
      assert a + [c] + b == [c] + b;
      assert ([c] + b)[1..] == b;
    } else {
      SplitAfterPiece(a[1..], b, c);
      assert (a + [c] + b)[1..] == a[1..] + [c] + b;
      assert a == [a[0]] + a[1..];
    }
  }

  lemma {:induction false} SplitWithoutSep(s: string, c: char)
    requires c !in s
    ensures Split(s, c) == [s]
    decreases |s|
  {
    if |s| > 0 {
      SplitWithoutSep(s[1..], c);
      assert s == [s[0]] + s[1..];
    }
  }

  /** Splitting undoes joining pieces that do not contain the separator. */
  lemma {:induction false} SplitJoin(parts: seq<string>, c: char)
    requires |parts| >= 1
    requires forall k :: 0 <= k < |parts| ==> c !in parts[k]
    ensures Split(Join(parts, c), c) == parts
    decreases |parts|
  {
    if |parts| == 1 {
      SplitWithoutSep(parts[0], c);
    } else {
      SplitJoin(parts[1..], c);
      SplitAfterPiece(parts[0], Join(parts[1..], c), c);
      assert parts == [parts[0]] + parts[1..];
    }
  }

  /** `s.split(c)[0]`: the text before the first `c` (all of `s` when there is none). */
  function BeforeFirst(s: string, c: char): string {
    Split(s, c)[0]
  }

  lemma {:induction false} BeforeFirstIsPrefix(s: string, c: char)
    ensures |BeforeFirst(s, c)| <= |s|
    ensures BeforeFirst(s, c) == s[..|BeforeFirst(s, c)|]
    ensures c !in BeforeFirst(s, c)
    ensures c in s ==> |BeforeFirst(s, c)| < |s| && s[|BeforeFirst(s, c)|] == c
    ensures c !in s ==> BeforeFirst(s, c) == s
    decreases |s|
  {
    if |s| > 0 {
      BeforeFirstIsPrefix(s[1..], c);
      if s[0] != c {
        assert BeforeFirst(s, c) == [s[0]] + BeforeFirst(s[1..], c);
        assert c in s ==> c in s[1..];
      }
    }
  }

  /** The text before the first `c` when that `c` is at index `i`. */
  lemma BeforeFirstAt(s: string, c: char, i: nat)
    requires i < |s| && s[i] == c && c !in s[..i]
    ensures BeforeFirst(s, c) == s[..i]
  {
    BeforeFirstIsPrefix(s, c);
  }

  /** Upper-casing commutes with taking the text before a non-letter separator. */
  lemma {:induction false} BeforeFirstOfUpper(s: string, c: char)
    requires !IsLowerAscii(c) && !IsUpperAscii(c)
    ensures BeforeFirst(Upper(s), c) == Upper(BeforeFirst(s, c))
    decreases |s|
  {
    if |s| > 0 {
      assert Upper(s)[1..] == Upper(s[1..]);
      BeforeFirstOfUpper(s[1..], c);
      if s[0] != c {
        assert Upper(s)[0] != c;
        assert BeforeFirst(s, c) == [s[0]] + BeforeFirst(s[1..], c);
        assert BeforeFirst(Upper(s), c) == [UpperChar(s[0])] + BeforeFirst(Upper(s[1..]), c);
      }
    }
  }

  /** What `s.trim()` strips: ECMAScript's WhiteSpace (tab, vertical tab, form
      feed, space, no-break space, the byte-order mark and the other Unicode
      space separators) and LineTerminator (LF, CR, U+2028, U+2029). */
  predicate IsSpace(c: char) {
    c == '\t' || c == '\U{000B}' || c == '\U{000C}' || c == ' ' || c == '\U{00A0}' || c == '\U{FEFF}'
    || c == '\U{1680}' || ('\U{2000}' <= c <= '\U{200A}') || c == '\U{202F}' || c == '\U{205F}' || c == '\U{3000}'
    || c == '\n' || c == '\r' || c == '\U{2028}' || c == '\U{2029}'
  }

  function TrimStart(s: string): (r: string)
    ensures |r| <= |s| && r == s[|s| - |r|..]
    ensures r == [] || !IsSpace(r[0])
    ensures forall k :: 0 <= k < |s| - |r| ==> IsSpace(s[k])
    decreases |s|
  {
    if |s| > 0 && IsSpace(s[0]) then TrimStart(s[1..]) else s
  }

  function TrimEnd(s: string): (r: string)
    ensures |r| <= |s| && r == s[..|r|]
    ensures r == [] || !IsSpace(r[|r| - 1])
    ensures forall k :: |r| <= k < |s| ==> IsSpace(s[k])
    decreases |s|
  {
    if |s| > 0 && IsSpace(s[|s| - 1]) then TrimEnd(s[..|s| - 1]) else s
  }

  function Trim(s: string): (r: string) {
    TrimEnd(TrimStart(s))
  }

  /** `trim()` neither starts nor ends with white space. */
  lemma TrimHasNoOuterSpace(s: string)
    ensures Trim(s) == [] || (!IsSpace(Trim(s)[0]) && !IsSpace(Trim(s)[|Trim(s)| - 1]))
  {
    var t := TrimStart(s);
    var r := TrimEnd(t);
    if r != [] {
      assert r[0] == t[0];
    }
  }

  /** Where `trim()`'s kept slice begins: after the leading white space. */
  function TrimOffset(s: string): nat {
    |s| - |TrimStart(s)|
  }

  /** `trim()` keeps a middle slice of `s` and cuts off only white space. */
  lemma TrimStripsOnlySpace(s: string)
    ensures TrimOffset(s) + |Trim(s)| <= |s|
    ensures Trim(s) == s[TrimOffset(s)..TrimOffset(s) + |Trim(s)|]
    ensures forall k :: 0 <= k < TrimOffset(s) ==> IsSpace(s[k])
    ensures forall k :: TrimOffset(s) + |Trim(s)| <= k < |s| ==> IsSpace(s[k])
  {
    var t := TrimStart(s);
    var a := TrimOffset(s);
    assert Trim(s) == TrimEnd(t);
    TrimSlice(s, t, a, TrimEnd(t));
    TrimEndTail(s, t, a, TrimEnd(t));
  }

  lemma TrimSlice(s: string, t: string, a: nat, r: string)
    requires a <= |s| && t == s[a..] && |r| <= |t| && r == t[..|r|]
    ensures r == s[a..a + |r|]
  {
  }

  lemma TrimEndTail(s: string, t: string, a: nat, r: string)
    requires a <= |s| && t == s[a..] && r == TrimEnd(t)
    ensures forall k :: a + |r| <= k < |s| ==> IsSpace(s[k])
  {
    forall k | a + |r| <= k < |s| ensures IsSpace(s[k]) {
      assert s[k] == t[k - a];
    }
  }

  /** ECMAScript's LineTerminator: the characters a regular expression's `.` never matches. */
  predicate IsLineTerminator(c: char) {
    c == '\n' || c == '\r' || c == '\U{2028}' || c == '\U{2029}'
  }

  /** Upper-casing distributes over concatenation. */
  lemma UpperAppend(a: string, b: string)
    ensures Upper(a + b) == Upper(a) + Upper(b)
  {
    assert forall i :: 0 <= i < |a + b| ==> Upper(a + b)[i] == (Upper(a) + Upper(b))[i];
  }

  /** `sub` occurs in `s` starting at index `i`. */
  predicate OccursAt(s: string, sub: string, i: int) {
    0 <= i && i + |sub| <= |s| && s[i..i + |sub|] == sub
  }

  /** Index of the first occurrence of `sub` in `s`, or -1 (JavaScript `indexOf`). */
  function IndexOfSub(s: string, sub: string): (r: int)
    ensures r >= -1
    ensures r >= 0 ==> OccursAt(s, sub, r)
    ensures r >= 0 ==> forall j :: 0 <= j < r ==> !OccursAt(s, sub, j)
    ensures r == -1 ==> forall j :: !OccursAt(s, sub, j)
    decreases |s|
  {
    if |sub| > |s| then -1
    else if s[..|sub|] == sub then 0
    else
      var k := IndexOfSub(s[1..], sub);
      assert forall j :: 1 <= j ==> OccursAt(s, sub, j) == OccursAt(s[1..], sub, j - 1);
      if k == -1 then -1 else k + 1
  }

  /** `s.includes(sub)`. */
  predicate Contains(s: string, sub: string) {
    IndexOfSub(s, sub) >= 0
  }

  lemma ContainsAt(s: string, sub: string, i: int)
    requires OccursAt(s, sub, i)
    ensures Contains(s, sub)
  {
  }

  predicate StartsWith(s: string, prefix: string) {
    |prefix| <= |s| && s[..|prefix|] == prefix
  }

  predicate EndsWith(s: string, suffix: string) {
    |suffix| <= |s| && s[|s| - |suffix|..] == suffix
  }

  lemma EndsWithContains(s: string, suffix: string)
    requires EndsWith(s, suffix)
    ensures Contains(s, suffix)
  {
    assert OccursAt(s, suffix, |s| - |suffix|);
  }

  /** Index of the first element equal to `x`, or -1 (JavaScript `indexOf`). */
  function IndexOf(xs: seq<string>, x: string): (r: int)
    ensures -1 <= r < |xs|
    ensures r >= 0 ==> xs[r] == x && forall j :: 0 <= j < r ==> xs[j] != x
    ensures r == -1 <==> x !in xs
  {
    if |xs| == 0 then -1
    else if xs[0] == x then 0
    else
      var k := IndexOf(xs[1..], x);
      if k == -1 then -1 else k + 1
  }

  function DigitChar(d: nat): char
    requires d < 10
  {
    ('0' as int + d) as char
  }

  /** `String(n)` for a natural number: its decimal digits, most significant first. */
  function NatToDecimal(n: nat): (r: string)
    ensures |r| >= 1
    ensures forall i :: 0 <= i < |r| ==> '0' <= r[i] <= '9'
    decreases n
  {
    if n < 10 then [DigitChar(n)] else NatToDecimal(n / 10) + [DigitChar(n % 10)]
  }

  /** Reads a string of decimal digits back as a number. */
  function DecimalToNat(s: string): nat
    requires forall i :: 0 <= i < |s| ==> '0' <= s[i] <= '9'
    decreases |s|
  {
    if |s| == 0 then 0
    else DecimalToNat(s[..|s| - 1]) * 10 + (s[|s| - 1] as int - '0' as int)
  }

  lemma {:induction false} DecimalRoundTrip(n: nat)
    ensures DecimalToNat(NatToDecimal(n)) == n
    decreases n
  {
    if n >= 10 {
      DecimalRoundTrip(n / 10);
      var r := NatToDecimal(n);
      assert r[..|r| - 1] == NatToDecimal(n / 10);
    }
  }

  lemma NatToDecimalInjective(a: nat, b: nat)
    requires NatToDecimal(a) == NatToDecimal(b)
    ensures a == b
  {
    DecimalRoundTrip(a);
    DecimalRoundTrip(b);
  }
}
