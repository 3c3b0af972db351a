/**
 * The string primitives the survey code relies on, over `seq<char>`:
 * `trim`, `toLowerCase`, `includes`, `slice(0, n)`, `split`, `join`,
 * `Number.prototype.toString(radix)` and `charCodeAt`.
 * Case folding is ASCII-only; `trim` removes exactly the code points that
 * ECMAScript classes as WhiteSpace or LineTerminator.
 */
module Strings {

  /** ECMAScript WhiteSpace and LineTerminator code points. */
  predicate IsSpace(c: char) {
    || c == ' ' || c == '\t' || c == '\n' || c == '\r'
    || c == '\U{000B}' || c == '\U{000C}' || c == '\U{00A0}' || c == '\U{1680}'
    || ('\U{2000}' <= c <= '\U{200A}')
    || c == '\U{2028}' || c == '\U{2029}' || c == '\U{202F}' || c == '\U{205F}'
    || c == '\U{3000}' || c == '\U{FEFF}'
  }

  predicate AllSpace(s: string) {
    forall i :: 0 <= i < |s| ==> IsSpace(s[i])
  }

  /** Drops leading white space. */
  function TrimStart(s: string): string {
    if s != "" && IsSpace(s[0]) then TrimStart(s[1..]) else s
  }

  /** Drops trailing white space. */
  function TrimEnd(s: string): string {
    if s != "" && IsSpace(s[|s| - 1]) then TrimEnd(s[..|s| - 1]) else s
  }

  /** `String.prototype.trim`. */
  function Trim(s: string): string {
    TrimEnd(TrimStart(s))
  }

  /** What `TrimStart` leaves is the suffix of `s` after its leading white space. */
  lemma {:induction false} TrimStartSpec(s: string)
    ensures var r := TrimStart(s);
      && |r| <= |s| && r == s[|s| - |r|..]
      && (r == "" || !IsSpace(r[0]))
      && AllSpace(s[..|s| - |r|])
  {
    if s != "" && IsSpace(s[0]) {
      TrimStartSpec(s[1..]);
      var r := TrimStart(s[1..]);
      assert s[..|s| - |r|] == [s[0]] + s[1..][..|s| - 1 - |r|];
    }
  }

  /** What `TrimEnd` leaves is the prefix of `s` before its trailing white space. */
  lemma {:induction false} TrimEndSpec(s: string)
    ensures var r := TrimEnd(s);
      && |r| <= |s| && r == s[..|r|]
      && (r == "" || !IsSpace(r[|r| - 1]))
      && AllSpace(s[|r|..])
  {
    if s != "" && IsSpace(s[|s| - 1]) {
      TrimEndSpec(s[..|s| - 1]);
      var r := TrimEnd(s[..|s| - 1]);
      assert s[|r|..] == s[..|s| - 1][|r|..] + [s[|s| - 1]];
    }
  }

  /**
   * `trim` removes exactly the leading and trailing white space: the result
   * is a contiguous piece of `s` that neither starts nor ends with white space,
   * and only white space lies around it.
   */
  lemma TrimSpec(s: string)
    ensures var r := Trim(s);
      && (r == "" || (!IsSpace(r[0]) && !IsSpace(r[|r| - 1])))
      && exists k :: 0 <= k <= |s| - |r| && r == s[k..k + |r|]
                     && AllSpace(s[..k]) && AllSpace(s[k + |r|..])
  {
    var t := TrimStart(s);
    TrimStartSpec(s);
    TrimEndSpec(t);
    var r := TrimEnd(t);
    var k := |s| - |t|;
    assert r == s[k..k + |r|];
    assert s[k + |r|..] == t[|r|..];
  }

  /** A string is blank (falsy after `trim()`) exactly when it is all white space. */
  predicate IsBlank(s: string) {
    Trim(s) == ""
  }

  lemma BlankIffAllSpace(s: string)
    ensures IsBlank(s) <==> AllSpace(s)
  {
    TrimSpec(s);
    var r := Trim(s);
    var k :| 0 <= k <= |s| - |r| && r == s[k..k + |r|] && AllSpace(s[..k]) && AllSpace(s[k + |r|..]);
    if r == "" {
      forall i | 0 <= i < |s| ensures IsSpace(s[i]) {
        if i < k { assert s[..k][i] == s[i]; } else { assert s[k..][i - k] == s[i]; }
      }
    } else {
      assert s[k] == r[0];
    }
  }

  function LowerChar(c: char): char {
    if 'A' <= c <= 'Z' then (c as int + 32) as char else c
  }

  /** `String.prototype.toLowerCase`, for ASCII letters. */
  function ToLower(s: string): (r: string)
    ensures |r| == |s| && forall i :: 0 <= i < |s| ==> r[i] == LowerChar(s[i])
  {
    seq(|s|, i requires 0 <= i < |s| => LowerChar(s[i]))
  }

  /** The normal form titles are compared under: `title.trim().toLowerCase()`. */
  function Normalize(s: string): string {
    ToLower(Trim(s))
  }

  lemma LowerSpace(c: char)
    ensures IsSpace(LowerChar(c)) <==> IsSpace(c)
  {
  }

  /** Lower-casing commutes with trimming, so normalising twice changes nothing. */
  lemma NormalizeIdempotent(s: string)
    ensures Normalize(Normalize(s)) == Normalize(s)
  {
    var t := Trim(s);
    TrimSpec(s);
    var l := ToLower(t);
    if l != "" {
      LowerSpace(t[0]);
      LowerSpace(t[|t| - 1]);
      assert TrimStart(l) == l;
      assert TrimEnd(l) == l;
    }
    assert ToLower(l) == l;
  }

  /** `needle` occurs in `hay` starting at index `i`. */
  predicate OccursAt(hay: string, needle: string, i: int) {
    0 <= i <= |hay| - |needle| && hay[i..i + |needle|] == needle
  }

  /** `haystack.includes(needle)`. */
  function Contains(hay: string, needle: string): (b: bool)
    ensures b <==> exists i :: OccursAt(hay, needle, i)
    decreases |hay|
  {
    if |needle| <= |hay| && hay[..|needle|] == needle then
      assert OccursAt(hay, needle, 0);
      true
    else if |needle| < |hay| then
      var b := Contains(hay[1..], needle);
      assert forall i :: OccursAt(hay[1..], needle, i) <==> OccursAt(hay, needle, i + 1) by {
        forall i ensures OccursAt(hay[1..], needle, i) <==> OccursAt(hay, needle, i + 1) {
          if 0 <= i <= |hay| - 1 - |needle| {
            assert hay[1..][i..i + |needle|] == hay[i + 1..i + 1 + |needle|];
          }
        }
      }
      assert !OccursAt(hay, needle, 0);
      assert (exists i :: OccursAt(hay, needle, i)) ==> exists i :: OccursAt(hay[1..], needle, i) by {
        if exists i :: OccursAt(hay, needle, i) {
          var i :| OccursAt(hay, needle, i);
          assert OccursAt(hay[1..], needle, i - 1);
        }
      }
      b
    else
      false
  }

  /** `s.slice(0, n)` for n >= 0. */
  function Take(s: string, n: nat): (r: string)
    ensures |r| == if n < |s| then n else |s|
    ensures r == s[..|r|]
  {
    if n < |s| then s[..n] else s
  }

  /** `parts.join(sep)`. */
  function Join(parts: seq<string>, sep: string): string
  {
    if |parts| == 0 then ""
    else if |parts| == 1 then parts[0]
    else parts[0] + sep + Join(parts[1..], sep)
  }

  function IndexOf(s: string, c: char): (i: nat)
    requires c in s
    ensures i < |s| && s[i] == c && c !in s[..i]
  {
    if s[0] == c then 0 else 1 + IndexOf(s[1..], c)
  }

  /**
   * `s.split(c)` for a one-character separator: the pieces hold no separator
   * and joining them with it gives `s` back, so `Split` inverts `Join`.
   */
  function Split(s: string, c: char): (r: seq<string>)
    ensures |r| >= 1
    ensures forall i :: 0 <= i < |r| ==> c !in r[i]
    ensures Join(r, [c]) == s
    decreases |s|
  {
    if c !in s then [s]
    else
      var i := IndexOf(s, c);
      var rest := Split(s[i + 1..], c);
      assert s == s[..i] + [c] + s[i + 1..];
      [s[..i]] + rest
  }

  /** Joining a prefix of the parts gives a prefix of the whole join. */
  lemma {:induction false} JoinTakeIsPrefix(parts: seq<string>, k: nat, sep: string)
    requires k <= |parts|
    ensures var j := Join(parts[..k], sep); |j| <= |Join(parts, sep)| && j == Join(parts, sep)[..|j|]
  {
    if k == 0 {
    } else if |parts| == 1 {
      assert parts[..k] == parts;
    } else if k == 1 {
      assert parts[..1] == [parts[0]];
    } else {
      JoinTakeIsPrefix(parts[1..], k - 1, sep);
      assert parts[..k][1..] == parts[1..][..k - 1];
    }
  }

  /** Digits of `Number.prototype.toString(radix)`, lower case. */
  const Digits := "0123456789abcdef"

  predicate IsDigitOf(c: char, radix: nat) {
    c in Digits && DigitValue(c) < radix
  }

  lemma DivMod(n: nat, radix: nat)
    requires 2 <= radix <= 16 && radix <= n
    ensures 1 <= n / radix < n && n % radix < radix && n == n / radix * radix + n % radix
  {
  }

  /** `n.toString(radix)` for a non-negative integer: no leading zeros, "0" for 0. */
  function Radix(n: nat, radix: nat): (r: string)
    requires 2 <= radix <= 16
    ensures |r| >= 1 && (r[0] == '0' <==> n == 0)
    ensures forall i :: 0 <= i < |r| ==> IsDigitOf(r[i], radix)
    decreases n
  {
    if n < radix then
      DigitRoundTrip(n);
      [Digits[n]]
    else
      DivMod(n, radix);
      var q, d := n / radix, n % radix;
      DigitRoundTrip(d);
      var rest := Radix(q, radix);
      assert rest[0] != '0';
      rest + [Digits[d]]
  }

  function DigitValue(c: char): nat {
    if '0' <= c <= '9' then c as int - '0' as int
    else if 'a' <= c <= 'f' then c as int - 'a' as int + 10
    else 0
  }

  /** Reads digits back (the inverse of `Radix`). */
  function FromRadix(s: string, radix: nat): nat {
    if s == "" then 0 else FromRadix(s[..|s| - 1], radix) * radix + DigitValue(s[|s| - 1])
  }

  lemma DigitRoundTrip(d: nat)
    requires d < 16
    ensures DigitValue(Digits[d]) == d && Digits[d] in Digits
  {
  }

  lemma {:induction false} RadixRoundTrip(n: nat, radix: nat)
    requires 2 <= radix <= 16
    ensures FromRadix(Radix(n, radix), radix) == n
    decreases n
  {
    if n < radix {
      DigitRoundTrip(n);
      assert Radix(n, radix)[..0] == "";
    } else {
      DivMod(n, radix);
      var q, d := n / radix, n % radix;
      var r, rest := Radix(n, radix), Radix(q, radix);
      assert r == rest + [Digits[d]];
      assert r[..|r| - 1] == rest && r[|r| - 1] == Digits[d];
      RadixRoundTrip(q, radix);
      DigitRoundTrip(d);
      calc {
        FromRadix(r, radix);
        FromRadix(rest, radix) * radix + DigitValue(Digits[d]);
        q * radix + d;
      }
    }
  }

  /** The UTF-16 code units of one character: what `charCodeAt` walks over. */
  function CodeUnits(c: char): (u: seq<nat>)
    ensures 1 <= |u| <= 2 && forall i :: 0 <= i < |u| ==> u[i] < 0x1_0000
  {
    var v := c as int;
    if v < 0x1_0000 then [v]
    else [0xD800 + (v - 0x1_0000) / 0x400, 0xDC00 + (v - 0x1_0000) % 0x400]
  }

  /** The UTF-16 encoding of a string: `s.charCodeAt(0) … s.charCodeAt(s.length - 1)`. */
  function Utf16(s: string): (u: seq<nat>)
    ensures |u| >= |s|
    ensures forall i :: 0 <= i < |u| ==> u[i] < 0x1_0000
  {
    if s == "" then [] else Utf16(s[..|s| - 1]) + CodeUnits(s[|s| - 1])
  }
}
