/**
 * ASCII models of the `str` operations the dashboard relies on: trimming,
 * lower-casing, substring search, splitting on separator characters,
 * `lines()`, joining, `replace`, and decimal `usize` printing and parsing.
 * A `char` stands for one byte of an ASCII string.
 */
module Text {

  import opened Wrappers

  type String = seq<char>

  /** The ASCII characters `char::is_whitespace` accepts: tab, line feed,
      vertical tab, form feed, carriage return and space. */
  const Whitespace: set<char> := {' ', '\t', '\n', '\r', 11 as char, 12 as char}

  predicate IsWhitespace(c: char) {
    c in Whitespace
  }

  /** The first position at or after `i` that holds no whitespace
      (`|s|` when there is none). */
  function SkipWhitespace(s: String, i: nat): (j: nat)
    requires i <= |s|
    ensures i <= j <= |s|
    ensures forall k :: i <= k < j ==> IsWhitespace(s[k])
    ensures j < |s| ==> !IsWhitespace(s[j])
    decreases |s| - i
  {
    if i < |s| && IsWhitespace(s[i]) then SkipWhitespace(s, i + 1) else i
  }

  /** The end of `s[lo..j]` once its trailing whitespace is dropped. */
  function SkipWhitespaceBack(s: String, lo: nat, j: nat): (k: nat)
    requires lo <= j <= |s|
    ensures lo <= k <= j
    ensures forall m :: k <= m < j ==> IsWhitespace(s[m])
    ensures k > lo ==> !IsWhitespace(s[k - 1])
    decreases j
  {
    if j > lo && IsWhitespace(s[j - 1]) then SkipWhitespaceBack(s, lo, j - 1) else j
  }

  predicate NoOuterWhitespace(s: String) {
    s == [] || (!IsWhitespace(s[0]) && !IsWhitespace(s[|s| - 1]))
  }

  /** `trim`: the slice left once whitespace is dropped at both ends. */
  function Trim(s: String): (r: String)
    ensures |r| <= |s|
    ensures NoOuterWhitespace(r)
  {
    var a := SkipWhitespace(s, 0);
    s[a..SkipWhitespaceBack(s, a, |s|)]
  }

  /** What `trim` promises: the result is a slice of the input and
      everything cut off on either side was whitespace. */
  lemma TrimIsSlice(s: String)
    ensures var a := SkipWhitespace(s, 0); var b := SkipWhitespaceBack(s, a, |s|);
      && Trim(s) == s[a..b]
      && (forall k :: 0 <= k < a ==> IsWhitespace(s[k]))
      && (forall k :: b <= k < |s| ==> IsWhitespace(s[k]))
  {
  }

  /** A string with no whitespace at its ends is its own trim. */
  lemma TrimIdentity(s: String)
    requires NoOuterWhitespace(s)
    ensures Trim(s) == s
  {
    if s != [] {
      assert SkipWhitespace(s, 0) == 0;
      assert SkipWhitespaceBack(s, 0, |s|) == |s|;
    }
  }

  lemma TrimIdempotent(s: String)
    ensures Trim(Trim(s)) == Trim(s)
  {
    TrimIdentity(Trim(s));
  }

  function LowerChar(c: char): char {
    if 'A' <= c <= 'Z' then (c as int - 'A' as int + 'a' as int) as char else c
  }

  /** `to_lowercase`, ASCII letters only. */
  function ToLower(s: String): (r: String)
    ensures |r| == |s|
  {
    seq(|s|, i requires 0 <= i < |s| => LowerChar(s[i]))
  }

  predicate IsPrefix(p: String, s: String) {
    |p| <= |s| && s[..|p|] == p
  }

  /** `str::contains` for a string pattern. */
  predicate Contains(s: String, sub: String) {
    exists i | 0 <= i <= |s| :: IsPrefix(sub, s[i..])
  }

  lemma ContainsSelf(s: String, sub: String)
    requires IsPrefix(sub, s)
    ensures Contains(s, sub)
  {
    assert IsPrefix(sub, s[0..]);
  }

  /** `split` on a set of separator characters: n separators give n + 1 pieces,
      empty pieces included. */
  function Split(s: String, seps: set<char>): (r: seq<String>)
    ensures |r| >= 1
    decreases |s|
  {
    if s == [] then [[]]
    else
      var rest := Split(s[1..], seps);
      if s[0] in seps then [[]] + rest
      else [[s[0]] + rest[0]] + rest[1..]
  }

  /** `join`: the pieces with `sep` between consecutive ones. */
  function Join(parts: seq<String>, sep: String): String
    decreases |parts|
  {
    if |parts| == 0 then []
    else if |parts| == 1 then parts[0]
    else parts[0] + sep + Join(parts[1..], sep)
  }

  /** No piece of a split contains a separator. */
  lemma {:induction false} SplitPiecesHaveNoSeparator(s: String, seps: set<char>)
    ensures forall p, k :: p in Split(s, seps) && 0 <= k < |p| ==> p[k] !in seps
    decreases |s|
  {
    if s != [] {
      SplitPiecesHaveNoSeparator(s[1..], seps);
      var rest := Split(s[1..], seps);
      if s[0] !in seps {
        forall p, k | p in Split(s, seps) && 0 <= k < |p| ensures p[k] !in seps {
          if p == [s[0]] + rest[0] {
            if k > 0 { assert p[k] == rest[0][k - 1]; }
          } else {
            assert p in rest[1..];
          }
        }
      }
    }
  }

  /** A string holding no separator is a single piece. */
  lemma {:induction false} SplitNoSeparator(s: String, seps: set<char>)
    requires forall k :: 0 <= k < |s| ==> s[k] !in seps
    ensures Split(s, seps) == [s]
    decreases |s|
  {
    if s != [] {
      SplitNoSeparator(s[1..], seps);
      assert [s[0]] + s[1..] == s;
    }
  }

  /** Splitting cuts at the first separator. */
  lemma {:induction false} SplitAtSeparator(a: String, c: char, b: String, seps: set<char>)
    requires c in seps
    requires forall k :: 0 <= k < |a| ==> a[k] !in seps
    ensures Split(a + [c] + b, seps) == [a] + Split(b, seps)
    decreases |a|
  {
    var s := a + [c] + b;
    if a == [] {
      assert s[1..] == b;
    } else {
      assert s[1..] == a[1..] + [c] + b;
      SplitAtSeparator(a[1..], c, b, seps);
      assert [a[0]] + a[1..] == a;
    }
  }

  /** Splitting on one character and joining with it gives back the input. */
  lemma {:induction false} SplitJoin(s: String, c: char)
    ensures Join(Split(s, {c}), [c]) == s
    decreases |s|
  {
    if s != [] {
      SplitJoin(s[1..], c);
      var rest := Split(s[1..], {c});
      if s[0] == c {
        assert Split(s, {c}) == [[]] + rest;
        assert Join([[]] + rest, [c]) == [] + [c] + Join(rest, [c]);
      } else {
        assert Split(s, {c}) == [[s[0]] + rest[0]] + rest[1..];
        if |rest| == 1 {
          assert Join(rest, [c]) == rest[0];
        } else {
          assert rest == [rest[0]] + rest[1..];
          assert Join(rest, [c]) == rest[0] + [c] + Join(rest[1..], [c]);
        }
      }
    }
  }

  /** Keep only the non-empty strings, in order. */
  function NonEmpty(parts: seq<String>): (r: seq<String>)
    ensures forall p :: p in r ==> p in parts && p != []
    ensures |r| <= |parts|
  {
    if parts == [] then []
    else if parts[0] == [] then NonEmpty(parts[1..])
    else [parts[0]] + NonEmpty(parts[1..])
  }

  /** Map `trim` over the pieces. */
  function TrimAll(parts: seq<String>): (r: seq<String>)
    ensures |r| == |parts|
  {
    if parts == [] then [] else [Trim(parts[0])] + TrimAll(parts[1..])
  }

  lemma {:induction false} TrimAllAt(parts: seq<String>, i: nat)
    requires i < |parts|
    ensures TrimAll(parts)[i] == Trim(parts[i])
  {
    if i > 0 {
      TrimAllAt(parts[1..], i - 1);
    }
  }

  /** `split_whitespace`: the maximal non-whitespace runs, in order. */
  function SplitWhitespace(s: String): (r: seq<String>)
  {
    NonEmpty(Split(s, Whitespace))
  }

  /** Position of the first `c` in `s`, when there is one. */
  function IndexOf(s: String, c: char): (r: Option<nat>)
    ensures r.None? <==> c !in s
    ensures r.Some? ==> r.value < |s| && s[r.value] == c && c !in s[..r.value]
  {
    if s == [] then None
    else if s[0] == c then Some(0)
    else
      match IndexOf(s[1..], c)
      case None => None
      case Some(i) =>
        assert s[1..][..i] == s[1..i + 1];
        Some(i + 1)
  }

  /** Drop one trailing carriage return. */
  function StripCR(s: String): String {
    if |s| > 0 && s[|s| - 1] == '\r' then s[..|s| - 1] else s
  }

  /** `str::lines`: split at `\n`, drop a `\r` right before it, and treat
      the final line ending as optional. */
  function Lines(s: String): (r: seq<String>)
    decreases |s|
  {
    if s == [] then []
    else
      match IndexOf(s, '\n')
      case None => [s]
      case Some(i) => [StripCR(s[..i])] + Lines(s[i + 1..])
  }

  lemma {:induction false} LinesHaveNoNewline(s: String)
    ensures forall l :: l in Lines(s) ==> '\n' !in l
    decreases |s|
  {
    if s != [] {
      match IndexOf(s, '\n')
      case None =>
      case Some(i) =>
        var head := StripCR(s[..i]);
        var tail := Lines(s[i + 1..]);
        LinesHaveNoNewline(s[i + 1..]);
        StripCRKeepsAbsent(s[..i], '\n');
        assert Lines(s) == [head] + tail;
        forall l | l in Lines(s)
          ensures '\n' !in l
        {
          if l != head {
            assert l in tail;
          }
        }
    }
  }

  /** Concatenation is associative; stated once so that callers need not
      rediscover it through sequence extensionality. */
  lemma AppendAssoc<T>(a: seq<T>, b: seq<T>, c: seq<T>)
    ensures (a + b) + c == a + (b + c)
  {
  }

  /** Dropping a final `\r` adds no character. */
  lemma StripCRKeepsAbsent(s: String, c: char)
    requires c !in s
    ensures c !in StripCR(s)
  {
    if |s| > 0 && s[|s| - 1] == '\r' {
      assert forall k :: 0 <= k < |s| - 1 ==> StripCR(s)[k] == s[k];
    }
  }

  /** `str::replace` with a non-empty pattern: every non-overlapping
      occurrence, scanning left to right, is replaced. */
  function Replace(s: String, pat: String, rep: String): String
    requires |pat| > 0
    decreases |s|
  {
    if |s| < |pat| then s
    else if s[..|pat|] == pat then rep + Replace(s[|pat|..], pat, rep)
    else [s[0]] + Replace(s[1..], pat, rep)
  }

  /** A string in which the pattern does not occur is left as it is. */
  lemma {:induction false} ReplaceAbsent(s: String, pat: String, rep: String)
    requires |pat| > 0 && !Contains(s, pat)
    ensures Replace(s, pat, rep) == s
    decreases |s|
  {
    if |s| >= |pat| {
      assert s[0..] == s;
      assert !IsPrefix(pat, s[0..]);
      assert !Contains(s[1..], pat) by {
        forall i | 0 <= i <= |s[1..]| ensures !IsPrefix(pat, s[1..][i..]) {
          assert s[1..][i..] == s[i + 1..];
        }
      }
      ReplaceAbsent(s[1..], pat, rep);
    }
  }

  /** The pattern on its own is replaced by the replacement. */
  lemma ReplaceWhole(pat: String, rep: String)
    requires |pat| > 0
    ensures Replace(pat, pat, rep) == rep
  {
    assert pat[..|pat|] == pat;
    assert Replace(pat[|pat|..], pat, rep) == [];
  }

  function DigitChar(d: nat): char
    requires d < 10
  {
    ('0' as int + d) as char
  }

  predicate IsDigit(c: char) {
    '0' <= c <= '9'
  }

  predicate AllDigits(s: String) {
    forall k :: 0 <= k < |s| ==> IsDigit(s[k])
  }

  /** Decimal formatting of a natural number, as `format!("{}", n)`. */
  function NatToString(n: nat): (r: String)
    ensures |r| >= 1
    decreases n
  {
    if n < 10 then [DigitChar(n)] else NatToString(n / 10) + [DigitChar(n % 10)]
  }

  function DigitsValue(s: String): nat
    requires AllDigits(s)
    decreases |s|
  {
    if s == [] then 0
    else DigitsValue(s[..|s| - 1]) * 10 + (s[|s| - 1] as int - '0' as int)
  }

  /** One past the largest `usize` (a 64-bit target). */
  const UsizeLimit: nat := 0x1_0000_0000_0000_0000

  /** `str::parse::<usize>()`: an optional `+`, then at least one decimal
      digit, with a value that fits in 64 bits. */
  function ParseUsize(s: String): (r: Option<nat>)
    ensures r.Some? ==> r.value < UsizeLimit
  {
    var digits := if |s| > 0 && s[0] == '+' then s[1..] else s;
    if digits == [] || !AllDigits(digits) then None
    else if DigitsValue(digits) < UsizeLimit then Some(DigitsValue(digits))
    else None
  }

  lemma {:induction false} NatToStringDigits(n: nat)
    ensures AllDigits(NatToString(n))
    ensures DigitsValue(NatToString(n)) == n
    decreases n
  {
    if n >= 10 {
      NatToStringDigits(n / 10);
      var s := NatToString(n);
      assert s[..|s| - 1] == NatToString(n / 10);
    }
  }

  /** Printing then parsing a `usize` gives it back. */
  lemma ParseUsizeRoundTrip(n: nat)
    requires n < UsizeLimit
    ensures ParseUsize(NatToString(n)) == Some(n)
  {
    NatToStringDigits(n);
    assert NatToString(n)[0] != '+';
  }

  /** Printed numbers are never mistaken for one another. */
  lemma NatToStringInjective(m: nat, n: nat)
    requires NatToString(m) == NatToString(n)
    ensures m == n
  {
    NatToStringDigits(m);
    NatToStringDigits(n);
  }

  /** `Ord` on strings: lexicographic by character, a prefix first. */
  predicate LexLe(a: String, b: String)
    decreases |a|
  {
    a == [] || (b != [] && (a[0] < b[0] || (a[0] == b[0] && LexLe(a[1..], b[1..]))))
  }

  /** Any two strings are ordered one way or the other. */
  lemma {:induction false} LexLeTotal(a: String, b: String)
    ensures LexLe(a, b) || LexLe(b, a)
    decreases |a|
  {
    if a != [] && b != [] && a[0] == b[0] {
      LexLeTotal(a[1..], b[1..]);
    }
  }
}
