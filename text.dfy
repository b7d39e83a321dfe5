/**
 * The handful of JavaScript and Python string operations the handlers rely on:
 * `startsWith`/`endsWith`, `includes` (Python `in`), `trim`, `toLowerCase`,
 * `join` and decimal rendering of a length.
 */
module Text {

  /** `s.startsWith(p)` / Python `s.startswith(p)`: case-sensitive prefix test. */
  predicate StartsWith(s: string, p: string)
  {
    |p| <= |s| && s[..|p|] == p
  }

  /** `s.endsWith(p)`: case-sensitive suffix test. */
  predicate EndsWith(s: string, p: string)
  {
    |p| <= |s| && s[|s| - |p|..] == p
  }

  /** `t` occurs in `s` starting at index `i`. */
  predicate OccursAt(s: string, t: string, i: int)
  {
    0 <= i <= |s| - |t| && s[i..i + |t|] == t
  }

  /** `s.includes(t)` / Python `t in s`: `t` occurs in `s` as a contiguous substring. */
  predicate Contains(s: string, t: string)
  {
    exists i | 0 <= i <= |s| - |t| :: OccursAt(s, t, i)
  }

  /** Every string contains the empty string, so `includes("")` is always true. */
  lemma ContainsEmpty(s: string)
    ensures Contains(s, "")
  {
    assert OccursAt(s, "", 0);
  }

  /**
   * The characters that ECMAScript's `String.prototype.trim` removes: the
   * WhiteSpace code points (tab, vertical tab, form feed, space, no-break
   * space, byte-order mark and the other space separators of category Zs)
   * and the LineTerminator code points (LF, CR, U+2028, U+2029).
   */
  predicate IsWhitespace(c: char)
  {
    var n := c as int;
    n == 0x09 || n == 0x0A || n == 0x0B || n == 0x0C || n == 0x0D || n == 0x20
    || n == 0xA0 || n == 0x1680 || (0x2000 <= n <= 0x200A) || n == 0x2028
    || n == 0x2029 || n == 0x202F || n == 0x205F || n == 0x3000 || n == 0xFEFF
  }

  /** A string that `trim` empties: JavaScript's `!s.trim()`. */
  predicate IsBlank(s: string)
  {
    forall i :: 0 <= i < |s| ==> IsWhitespace(s[i])
  }

  /** The first index at or after `k` whose character is not whitespace, or `|s|` when there is none. */
  function SkipSpace(s: string, k: nat): (n: nat)
    requires k <= |s|
    ensures k <= n <= |s|
    decreases |s| - k
  {
    if k < |s| && IsWhitespace(s[k]) then SkipSpace(s, k + 1) else k
  }

  /** The index just past the last character of `s[lo..k]` that is not whitespace, or `lo` when there is none. */
  function SkipSpaceBack(s: string, lo: nat, k: nat): (n: nat)
    requires lo <= k <= |s|
    ensures lo <= n <= k
    decreases k
  {
    if lo < k && IsWhitespace(s[k - 1]) then SkipSpaceBack(s, lo, k - 1) else k
  }

  lemma {:induction false} SkipSpaceSkips(s: string, k: nat)
    requires k <= |s|
    ensures forall i :: k <= i < SkipSpace(s, k) ==> IsWhitespace(s[i])
    ensures SkipSpace(s, k) < |s| ==> !IsWhitespace(s[SkipSpace(s, k)])
    decreases |s| - k
  {
    if k < |s| && IsWhitespace(s[k]) {
      SkipSpaceSkips(s, k + 1);
    }
  }

  lemma {:induction false} SkipSpaceBackSkips(s: string, lo: nat, k: nat)
    requires lo <= k <= |s|
    ensures forall i :: SkipSpaceBack(s, lo, k) <= i < k ==> IsWhitespace(s[i])
    ensures SkipSpaceBack(s, lo, k) > lo ==> !IsWhitespace(s[SkipSpaceBack(s, lo, k) - 1])
    decreases k
  {
    if lo < k && IsWhitespace(s[k - 1]) {
      SkipSpaceBackSkips(s, lo, k - 1);
    }
  }

  /** `s.trim()`: `s` without its leading and trailing whitespace. */
  function Trim(s: string): (r: string)
    ensures |r| <= |s|
  {
    var a := SkipSpace(s, 0);
    s[a..SkipSpaceBack(s, a, |s|)]
  }

  /** `trim` keeps the slice between the leading and the trailing whitespace. */
  lemma TrimSlice(s: string)
    ensures var a := SkipSpace(s, 0);
            && OccursAt(s, Trim(s), a)
            && IsBlank(s[..a])
            && IsBlank(s[a + |Trim(s)|..])
  {
    var a := SkipSpace(s, 0);
    var b := SkipSpaceBack(s, a, |s|);
    SkipSpaceSkips(s, 0);
    SkipSpaceBackSkips(s, a, |s|);
    assert Trim(s) == s[a..b];
  }

  /** What `trim` leaves neither starts nor ends with whitespace. */
  lemma TrimEnds(s: string)
    ensures var r := Trim(s);
            r != [] ==> !IsWhitespace(r[0]) && !IsWhitespace(r[|r| - 1])
  {
    var a := SkipSpace(s, 0);
    var b := SkipSpaceBack(s, a, |s|);
    SkipSpaceSkips(s, 0);
    SkipSpaceBackSkips(s, a, |s|);
    assert Trim(s) == s[a..b];
  }

  /** `trim` empties a string exactly when the string is blank. */
  lemma TrimBlank(s: string)
    ensures Trim(s) == [] <==> IsBlank(s)
  {
    var a := SkipSpace(s, 0);
    var b := SkipSpaceBack(s, a, |s|);
    SkipSpaceSkips(s, 0);
    SkipSpaceBackSkips(s, a, |s|);
    if a == b {
      assert forall i :: 0 <= i < |s| ==> (i < a || b <= i) && IsWhitespace(s[i]);
    } else {
      assert !IsWhitespace(s[a]);
    }
  }

  /**
   * What `trim` leaves, in full: a slice of `s` with only whitespace before
   * and after it, which neither starts nor ends with whitespace, and which is
   * empty exactly when `s` is blank.
   */
  lemma TrimSpec(s: string)
    ensures var r := Trim(s);
            && (exists k :: OccursAt(s, r, k) && IsBlank(s[..k]) && IsBlank(s[k + |r|..]))
            && (r != [] ==> !IsWhitespace(r[0]) && !IsWhitespace(r[|r| - 1]))
            && (r == [] <==> IsBlank(s))
  {
    TrimSlice(s);
    TrimEnds(s);
    TrimBlank(s);
  }

  /** The trim is a slice of the string, so the string contains it. */
  lemma TrimContained(s: string)
    ensures Contains(s, Trim(s))
  {
    TrimSlice(s);
  }

  /** ASCII `toLowerCase` of one character. */
  function LowerChar(c: char): char
  {
    if 'A' <= c <= 'Z' then (c as int + 32) as char else c
  }

  /** `s.toLowerCase()` restricted to the ASCII letters; length is kept. */
  function ToLower(s: string): (r: string)
    ensures |r| == |s|
    ensures forall i :: 0 <= i < |s| ==> r[i] == LowerChar(s[i])
  {
    if s == [] then [] else [LowerChar(s[0])] + ToLower(s[1..])
  }

  /** `parts.join(sep)`: the parts with `sep` between neighbours. */
  function Join(parts: seq<string>, sep: string): string
  {
    if |parts| == 0 then ""
    else if |parts| == 1 then parts[0]
    else parts[0] + sep + Join(parts[1..], sep)
  }

  /** The concatenation of all the parts, in order. */
  function Concat(parts: seq<string>): string
  {
    if parts == [] then "" else parts[0] + Concat(parts[1..])
  }

  /** Concatenating one more part extends the concatenation by that part. */
  lemma {:induction false} ConcatSnoc(parts: seq<string>, p: string)
    ensures Concat(parts + [p]) == Concat(parts) + p
  {
    if parts == [] {
      assert [] + [p] == [p];
    } else {
      assert (parts + [p])[1..] == parts[1..] + [p];
      ConcatSnoc(parts[1..], p);
    }
  }

  /**
   * The non-empty strings of `ts`, in order: what a loop keeps when it
   * pushes each string only if it is truthy (`if (chunk) chunks.push(chunk)`).
   */
  function NonEmpty(ts: seq<string>): seq<string>
  {
    if ts == [] then []
    else NonEmpty(ts[..|ts| - 1]) + (if ts[|ts| - 1] == "" then [] else [ts[|ts| - 1]])
  }

  /** One more string is appended when it is not empty. */
  lemma NonEmptyStep(ts: seq<string>, j: nat)
    requires j < |ts|
    ensures NonEmpty(ts[..j + 1]) == NonEmpty(ts[..j]) + (if ts[j] == "" then [] else [ts[j]])
  {
    assert ts[..j + 1][..j] == ts[..j];
  }

  /** At most every string is kept, and every string that is not empty. */
  lemma {:induction false} NonEmptyCount(ts: seq<string>)
    ensures |NonEmpty(ts)| <= |ts|
    ensures (forall i :: 0 <= i < |ts| ==> ts[i] != "") ==> NonEmpty(ts) == ts
  {
    if ts != [] {
      NonEmptyCount(ts[..|ts| - 1]);
      assert ts[..|ts| - 1] + [ts[|ts| - 1]] == ts;
    }
  }

  /** What is kept is non-empty and comes from the input. */
  lemma {:induction false} NonEmptyMembers(ts: seq<string>, c: string)
    requires c in NonEmpty(ts)
    ensures c != "" && c in ts
  {
    if ts != [] {
      var last: seq<string> := if ts[|ts| - 1] == "" then [] else [ts[|ts| - 1]];
      if c !in last {
        NonEmptyMembers(ts[..|ts| - 1], c);
      }
    }
  }

  function DigitChar(d: nat): char
    requires d < 10
  {
    "0123456789"[d]
  }

  /** Decimal rendering of a natural number, as `${n}` writes it. */
  function NatToString(n: nat): (r: string)
    ensures |r| >= 1
    ensures forall i :: 0 <= i < |r| ==> '0' <= r[i] <= '9'
    ensures |r| > 1 ==> r[0] != '0'
    decreases n
  {
    if n < 10 then [DigitChar(n)] else NatToString(n / 10) + [DigitChar(n % 10)]
  }

  function DigitValue(c: char): nat
    requires '0' <= c <= '9'
  {
    c as int - '0' as int
  }

  /** Reads back a decimal string: the partner of NatToString. */
  function ParseNat(s: string): nat
    requires forall i :: 0 <= i < |s| ==> '0' <= s[i] <= '9'
  {
    if s == [] then 0 else 10 * ParseNat(s[..|s| - 1]) + DigitValue(s[|s| - 1])
  }

  /** Rendering a number in decimal and reading it back gives the number. */
  lemma {:induction false} ParseNatToString(n: nat)
    ensures ParseNat(NatToString(n)) == n
    decreases n
  {
    var r := NatToString(n);
    if n >= 10 {
      var front := NatToString(n / 10);
      ParseNatToString(n / 10);
      assert r == front + [DigitChar(n % 10)];
      assert r[..|r| - 1] == front;
      assert DigitValue(r[|r| - 1]) == n % 10;
    } else {
      assert DigitValue(DigitChar(n)) == n;
    }
  }
}
