/** Text primitives the conversation engine relies on: ASCII lower-casing,
    Python's `sub in s`, the character classes its three regular expressions
    use, decimal digits and `sep.join(lines)`. */
module Text {

  /** ASCII lower-casing of one character (the model of `str.lower()`). */
  function Lower(c: char): char {
    if 'A' <= c <= 'Z' then (c as int + 32) as char else c
  }

  function ToLower(s: string): (r: string)
    ensures |r| == |s|
    ensures forall i :: 0 <= i < |s| ==> r[i] == Lower(s[i])
  {
    seq(|s|, i requires 0 <= i < |s| => Lower(s[i]))
  }

  /** Lower-casing twice is lower-casing once. */
  lemma ToLowerIdempotent(s: string)
    ensures ToLower(ToLower(s)) == ToLower(s)
  {
    assert forall i :: 0 <= i < |s| ==> Lower(Lower(s[i])) == Lower(s[i]);
  }

  // ---------------------------------------------------------------------------
  // Substring search (Python's `sub in s`)

  /** `sub` sits at position `i` of `s`. */
  predicate OccursAt(s: string, sub: string, i: nat) {
    i + |sub| <= |s| && s[i..i + |sub|] == sub
  }

  predicate Contains(s: string, sub: string) {
    exists i: nat | i <= |s| :: OccursAt(s, sub, i)
  }

  // The same test as a left-to-right scan, character by character; the
  // verifier can unfold it on literal strings.

  predicate MatchFrom(s: string, sub: string, i: nat, j: nat)
    decreases |sub| - j
  {
    j >= |sub| || (i + j < |s| && s[i + j] == sub[j] && MatchFrom(s, sub, i, j + 1))
  }

  predicate ContainsFrom(s: string, sub: string, i: nat)
    decreases |s| - i
  {
    i + |sub| <= |s| && (MatchFrom(s, sub, i, 0) || ContainsFrom(s, sub, i + 1))
  }

  lemma {:induction false} MatchFromSlice(s: string, sub: string, i: nat, j: nat)
    requires i + |sub| <= |s| && j <= |sub|
    ensures MatchFrom(s, sub, i, j) <==> s[i + j..i + |sub|] == sub[j..]
    decreases |sub| - j
  {
    if j < |sub| {
      MatchFromSlice(s, sub, i, j + 1);
      assert s[i + j..i + |sub|] == [s[i + j]] + s[i + j + 1..i + |sub|];
      assert sub[j..] == [sub[j]] + sub[j + 1..];
    }
  }

  /** The scan from `from` finds exactly the occurrences at `from` or later. */
  lemma {:induction false} ContainsFromIff(s: string, sub: string, from: nat)
    ensures ContainsFrom(s, sub, from) <==> exists i: nat :: from <= i && OccursAt(s, sub, i)
    decreases |s| - from
  {
    if from + |sub| <= |s| {
      MatchFromSlice(s, sub, from, 0);
      assert sub[0..] == sub;
      ContainsFromIff(s, sub, from + 1);
      if ContainsFrom(s, sub, from) {
        if MatchFrom(s, sub, from, 0) {
          assert OccursAt(s, sub, from);
        }
      }
      if exists i: nat :: from <= i && OccursAt(s, sub, i) {
        var i: nat :| from <= i && OccursAt(s, sub, i);
        if i == from {
          assert MatchFrom(s, sub, from, 0);
        } else {
          assert from + 1 <= i && OccursAt(s, sub, i);
        }
      }
    }
  }

  /** `sub in s` holds exactly when the scan from the start succeeds. */
  lemma ContainsScan(s: string, sub: string)
    ensures Contains(s, sub) <==> ContainsFrom(s, sub, 0)
  {
    ContainsFromIff(s, sub, 0);
  }

  /** Lower-casing works piece by piece. */
  lemma ToLowerAppend(a: string, b: string)
    ensures ToLower(a + b) == ToLower(a) + ToLower(b)
  {
  }

  /** An occurrence in either part is an occurrence in the whole. */
  lemma ContainsAppend(a: string, b: string, sub: string)
    requires Contains(a, sub) || Contains(b, sub)
    ensures Contains(a + b, sub)
  {
    if Contains(a, sub) {
      var i: nat :| i <= |a| && OccursAt(a, sub, i);
      assert (a + b)[i..i + |sub|] == a[i..i + |sub|];
      assert OccursAt(a + b, sub, i);
    } else {
      var i: nat :| i <= |b| && OccursAt(b, sub, i);
      assert (a + b)[|a| + i..|a| + i + |sub|] == b[i..i + |sub|];
      assert OccursAt(a + b, sub, |a| + i);
    }
  }

  /** Whatever contains a word contains every piece of it. */
  lemma ContainsPart(s: string, sub: string, k: nat, l: nat)
    requires k <= l <= |sub|
    ensures Contains(s, sub) ==> Contains(s, sub[k..l])
  {
    if Contains(s, sub) {
      var i: nat :| i <= |s| && OccursAt(s, sub, i);
      forall m | 0 <= m < l - k ensures s[i + k..i + l][m] == sub[k..l][m] {
        assert s[i + k + m] == s[i..i + |sub|][k + m];
      }
      assert OccursAt(s, sub[k..l], i + k);
    }
  }

  predicate NoSpace(s: string) {
    forall m :: 0 <= m < |s| ==> s[m] != ' '
  }

  /** A word without spaces cannot straddle a space that ends the first part. */
  lemma NotContainsAcrossSpace(a: string, b: string, sub: string)
    requires |a| > 0 && a[|a| - 1] == ' ' && NoSpace(sub)
    requires !Contains(a, sub) && !Contains(b, sub)
    ensures !Contains(a + b, sub)
  {
    forall i: nat | i <= |a + b| ensures !OccursAt(a + b, sub, i) {
      if i + |sub| <= |a + b| {
        var window := (a + b)[i..i + |sub|];
        if i + |sub| <= |a| {
          assert window == a[i..i + |sub|];
          assert !OccursAt(a, sub, i);
        } else if i >= |a| {
          assert window == b[i - |a|..i - |a| + |sub|];
          assert !OccursAt(b, sub, i - |a|);
        } else {
          assert window[|a| - 1 - i] == ' ' != sub[|a| - 1 - i];
        }
      }
    }
  }


  // ---------------------------------------------------------------------------
  // Character classes of the regular expressions (ASCII)

  predicate IsDigit(c: char) { '0' <= c <= '9' }

  /** `\w`: letters, digits and underscore. */
  predicate IsWordChar(c: char) {
    'a' <= c <= 'z' || 'A' <= c <= 'Z' || IsDigit(c) || c == '_'
  }

  /** `\s`: space, \t \n \v \f \r and the separators \x1c..\x1f. */
  predicate IsSpace(c: char) {
    c == ' ' || '\t' <= c <= '\r' || '\U{1c}' <= c <= '\U{1f}'
  }

  /** First position at or after `j` that is not whitespace (what `\s*` consumes). */
  function SkipSpace(s: string, j: nat): (r: nat)
    ensures j <= r <= (if j <= |s| then |s| else j)
    ensures r < |s| ==> !IsSpace(s[r])
    ensures forall m :: j <= m < r ==> IsSpace(s[m])
    decreases |s| - j
  {
    if j < |s| && IsSpace(s[j]) then SkipSpace(s, j + 1) else j
  }

  /** The maximal run of digits starting at `j` (what `\d+` captures). */
  function DigitRun(s: string, j: nat): (r: string)
    ensures forall m :: 0 <= m < |r| ==> IsDigit(r[m])
    ensures j + |r| <= |s| || r == []
    ensures r == [] || (j + |r| <= |s| && s[j..j + |r|] == r)
    ensures j + |r| < |s| ==> !IsDigit(s[j + |r|])
    decreases |s| - j
  {
    if j < |s| && IsDigit(s[j]) then [s[j]] + DigitRun(s, j + 1) else []
  }

  // ---------------------------------------------------------------------------
  // Decimal numerals (`int(digits)` and `str(n)`)

  function DigitValue(c: char): nat
    requires IsDigit(c)
  {
    c as int - '0' as int
  }

  function DigitChar(d: nat): char
    requires d < 10
  {
    ('0' as int + d) as char
  }

  /** The value of a digit string, most significant digit first; leading
      zeros are allowed, as in `int("007")`. */
  function ParseNat(s: string): nat
    requires forall m :: 0 <= m < |s| ==> IsDigit(s[m])
  {
    if s == [] then 0 else 10 * ParseNat(s[..|s| - 1]) + DigitValue(s[|s| - 1])
  }

  /** The shortest decimal numeral of `n`. */
  function NatToString(n: nat): (r: string)
    ensures |r| > 0
    ensures forall m :: 0 <= m < |r| ==> IsDigit(r[m])
  {
    if n < 10 then [DigitChar(n)] else NatToString(n / 10) + [DigitChar(n % 10)]
  }

  /** Reading back a printed number yields the number. */
  lemma {:induction false} ParseNatToString(n: nat)
    ensures ParseNat(NatToString(n)) == n
  {
    var s := NatToString(n);
    if n >= 10 {
      ParseNatToString(n / 10);
      assert s[..|s| - 1] == NatToString(n / 10);
    }
  }

  // ---------------------------------------------------------------------------
  // `sep.join(lines)` and `s.split(c)`

  function Join(lines: seq<string>, sep: string): string {
    if |lines| == 0 then ""
    else if |lines| == 1 then lines[0]
    else lines[0] + sep + Join(lines[1..], sep)
  }

  /** Python's `s.split(c)` for a single-character separator: the pieces
      between separators; `""` splits into `[""]`. */
  function Split(s: string, c: char): (r: seq<string>)
    ensures |r| > 0
  {
    if s == [] then [""]
    else
      var rest := Split(s[1..], c);
      if s[0] == c then [""] + rest else [[s[0]] + rest[0]] + rest[1..]
  }

  lemma {:induction false} SplitNoSeparator(line: string, c: char, tail: string)
    requires c !in line
    ensures Split(line, c) == [line]
    ensures Split(line + [c] + tail, c) == [line] + Split(tail, c)
  {
    if line != [] {
      SplitNoSeparator(line[1..], c, tail);
      assert (line + [c] + tail)[1..] == line[1..] + [c] + tail;
      assert [line[0]] + line[1..] == line;
    } else {
      assert line + [c] + tail == [c] + tail;
    }
  }

  /** Splitting a non-empty join on its one-character separator gives back
      the lines, provided no line contains the separator. */
  lemma {:induction false} SplitJoin(lines: seq<string>, c: char)
    requires |lines| > 0
    requires forall m :: 0 <= m < |lines| ==> c !in lines[m]
    ensures Split(Join(lines, [c]), c) == lines
  {
    if |lines| == 1 {
      SplitNoSeparator(lines[0], c, "");
    } else {
      SplitJoin(lines[1..], c);
      SplitNoSeparator(lines[0], c, Join(lines[1..], [c]));
      assert [lines[0]] + lines[1..] == lines;
    }
  }
}
