/**
 * The string operations the core relies on: Python's str.strip(),
 * str.lower(), str.startswith(), str.replace() on single characters,
 * decimal rendering of integers, and the `re.sub(r'<[^>]+>', '', s)`
 * tag removal used by the element value resolver.
 */
module Text {

  /** The characters Python's str.isspace() accepts in the Latin-1 range. */
  predicate IsSpace(c: char) {
    c == ' ' || c == '\t' || c == '\n' || c == '\r' || c == '\U{0b}' || c == '\U{0c}'
    || c == '\U{1c}' || c == '\U{1d}' || c == '\U{1e}' || c == '\U{1f}'
    || c == '\U{85}' || c == '\U{a0}'
  }

  /** Drops leading whitespace. */
  function TrimStart(s: string): string {
    if s == [] || !IsSpace(s[0]) then s else TrimStart(s[1..])
  }

  /** Drops trailing whitespace. */
  function TrimEnd(s: string): string {
    if s == [] || !IsSpace(s[|s| - 1]) then s else TrimEnd(s[..|s| - 1])
  }

  /** What TrimStart keeps is a suffix that starts with a non-space, and
      everything before it is whitespace. */
  lemma {:induction false} TrimStartFacts(s: string)
    ensures |TrimStart(s)| <= |s| && TrimStart(s) == s[|s| - |TrimStart(s)|..]
    ensures TrimStart(s) == [] || !IsSpace(TrimStart(s)[0])
    ensures forall i :: 0 <= i < |s| - |TrimStart(s)| ==> IsSpace(s[i])
  {
    if s != [] && IsSpace(s[0]) {
      TrimStartFacts(s[1..]);
      assert s[1..][|s| - 1 - |TrimStart(s)|..] == s[|s| - |TrimStart(s)|..];
      forall i | 0 <= i < |s| - |TrimStart(s)| ensures IsSpace(s[i]) {
        if i > 0 { assert s[i] == s[1..][i - 1]; }
      }
    }
  }

  /** What TrimEnd keeps is a prefix that ends with a non-space, and
      everything after it is whitespace. */
  lemma {:induction false} TrimEndFacts(s: string)
    ensures |TrimEnd(s)| <= |s| && TrimEnd(s) == s[..|TrimEnd(s)|]
    ensures TrimEnd(s) == [] || !IsSpace(TrimEnd(s)[|TrimEnd(s)| - 1])
    ensures forall i :: |TrimEnd(s)| <= i < |s| ==> IsSpace(s[i])
  {
    if s != [] && IsSpace(s[|s| - 1]) {
      var init := s[..|s| - 1];
      TrimEndFacts(init);
      assert init[..|TrimEnd(s)|] == s[..|TrimEnd(s)|];
      forall i | |TrimEnd(s)| <= i < |s| ensures IsSpace(s[i]) {
        if i < |s| - 1 { assert s[i] == init[i]; }
      }
    }
  }

  /** Python's `s.strip()`. */
  function Strip(s: string): string {
    TrimEnd(TrimStart(s))
  }

  /** `s.strip()` is a contiguous slice of `s` with no whitespace at either
      end, and everything it cut off is whitespace. */
  lemma StripIsTrimmedSlice(s: string)
    ensures exists i, j :: 0 <= i <= j <= |s| && Strip(s) == s[i..j]
    ensures Strip(s) == [] || (!IsSpace(Strip(s)[0]) && !IsSpace(Strip(s)[|Strip(s)| - 1]))
    ensures (forall i :: 0 <= i < |s| ==> IsSpace(s[i])) <==> Strip(s) == []
  {
    var t := TrimStart(s);
    var r := TrimEnd(t);
    TrimStartFacts(s);
    TrimEndFacts(t);
    var i := |s| - |t|;
    assert r == s[i..i + |r|];
    if r != [] {
      assert t[0] == r[0];
      assert s[i] == r[0];
    } else {
      assert i == |s|;
    }
  }

  /** Stripping twice is stripping once. */
  lemma StripIdempotent(s: string)
    ensures Strip(Strip(s)) == Strip(s)
  {
    StripIsTrimmedSlice(s);
  }

  /** A string with no whitespace at either end is its own strip. */
  lemma StripUnpadded(s: string)
    requires s != [] && !IsSpace(s[0]) && !IsSpace(s[|s| - 1])
    ensures Strip(s) == s
  {
    assert TrimStart(s) == s;
  }

  /** ASCII case folding (Python's str.lower() on ASCII letters). */
  function LowerChar(c: char): char {
    if 'A' <= c <= 'Z' then (c as int - 'A' as int + 'a' as int) as char else c
  }

  function Lower(s: string): string {
    if s == [] then [] else [LowerChar(s[0])] + Lower(s[1..])
  }

  /** Lowering keeps the length and folds each character on its own. */
  lemma {:induction false} LowerFacts(s: string)
    ensures |Lower(s)| == |s|
    ensures forall i :: 0 <= i < |s| ==> Lower(s)[i] == LowerChar(s[i])
  {
    if s != [] {
      LowerFacts(s[1..]);
      forall i | 0 <= i < |s| ensures Lower(s)[i] == LowerChar(s[i]) {
        if i > 0 { assert Lower(s)[i] == Lower(s[1..])[i - 1]; }
      }
    }
  }

  /** Python's `s.startswith(p)`. */
  predicate StartsWith(s: string, p: string) {
    |p| <= |s| && s[..|p|] == p
  }

  /** Appending keeps a prefix. */
  lemma StartsWithExtend(s: string, p: string, t: string)
    requires StartsWith(s, p)
    ensures StartsWith(s + t, p)
  {
    assert (s + t)[..|p|] == s[..|p|];
  }

  /** `s.replace(a, b)` for single characters `a` and `b`. */
  function ReplaceChar(s: string, a: char, b: char): (r: string)
    ensures |r| == |s|
    ensures forall i :: 0 <= i < |s| ==> r[i] == if s[i] == a then b else s[i]
  {
    if s == [] then [] else [if s[0] == a then b else s[0]] + ReplaceChar(s[1..], a, b)
  }

  function Repeat(c: char, n: nat): (r: string)
    ensures |r| == n && forall i :: 0 <= i < n ==> r[i] == c
  {
    if n == 0 then [] else [c] + Repeat(c, n - 1)
  }

  // ---------------------------------------------------------------------
  // Decimal rendering: Python's str(n) / f"{n}" for a non-negative int.

  function Digit(d: nat): char
    requires d < 10
  {
    "0123456789"[d]
  }

  function DigitValue(c: char): nat {
    if '0' <= c <= '9' then c as int - '0' as int else 0
  }

  function NatToString(n: nat): (r: string)
    ensures |r| >= 1
    ensures forall i :: 0 <= i < |r| ==> '0' <= r[i] <= '9'
  {
    if n < 10 then [Digit(n)] else NatToString(n / 10) + [Digit(n % 10)]
  }

  /** The reading of a string of decimal digits (the inverse of NatToString). */
  function ParseDecimal(s: string): nat {
    if s == [] then 0 else ParseDecimal(s[..|s| - 1]) * 10 + DigitValue(s[|s| - 1])
  }

  lemma {:induction false} ParseNatToString(n: nat)
    ensures ParseDecimal(NatToString(n)) == n
  {
    if n >= 10 {
      ParseNatToString(n / 10);
      var s := NatToString(n / 10) + [Digit(n % 10)];
      assert s[..|s| - 1] == NatToString(n / 10);
      DigitRoundTrip(n % 10);
    }
  }

  lemma DigitRoundTrip(d: nat)
    requires d < 10
    ensures DigitValue(Digit(d)) == d
  {
  }

  /** Distinct numbers render as distinct strings. */
  lemma NatToStringInjective(a: nat, b: nat)
    ensures NatToString(a) == NatToString(b) ==> a == b
  {
    ParseNatToString(a);
    ParseNatToString(b);
  }

  // ---------------------------------------------------------------------
  // `re.sub(r'<[^>]+>', '', s)`: remove every '<', one or more characters
  // other than '>', then '>', scanning left to right without overlap.

  /** The index of the first '>' in s at or after k, or |s| if there is none. */
  function CloseFrom(s: string, k: nat): (j: nat)
    requires k <= |s|
    ensures k <= j <= |s|
    ensures j < |s| ==> s[j] == '>'
    ensures forall i :: k <= i < j ==> s[i] != '>'
    decreases |s| - k
  {
    if k == |s| || s[k] == '>' then k else CloseFrom(s, k + 1)
  }

  /** A tag starts at position i: '<' and the first '>' after it is at least
      two positions further on. */
  predicate TagAt(s: string, i: nat)
    requires i < |s|
  {
    s[i] == '<' && CloseFrom(s, i + 1) < |s| && CloseFrom(s, i + 1) >= i + 2
  }

  function StripTags(s: string): (r: string)
    decreases |s|
  {
    if s == [] then []
    else if TagAt(s, 0) then StripTags(s[CloseFrom(s, 1) + 1..])
    else [s[0]] + StripTags(s[1..])
  }

  /** The text has no match of `<[^>]+>`. */
  predicate NoTag(s: string) {
    forall i :: 0 <= i < |s| && s[i] == '<' ==> (i + 1 < |s| && s[i + 1] == '>') || '>' !in s[i + 1..]
  }

  lemma {:induction false} NoTagMeansNoMatch(s: string, i: nat)
    requires i < |s|
    ensures NoTag(s) && s[i] == '<' ==> !TagAt(s, i)
  {
    if NoTag(s) && s[i] == '<' {
      var j := CloseFrom(s, i + 1);
      if j < |s| {
        assert s[i + 1..][j - i - 1] == '>';
        assert s[i + 1] == '>';
      }
    }
  }

  lemma {:induction false} StripTagsChars(s: string)
    ensures forall c :: c in StripTags(s) ==> c in s
    decreases |s|
  {
    if s == [] {
    } else if TagAt(s, 0) {
      var j := CloseFrom(s, 1);
      StripTagsChars(s[j + 1..]);
      assert s == s[..j + 1] + s[j + 1..];
    } else {
      StripTagsChars(s[1..]);
      assert s == [s[0]] + s[1..];
    }
  }

  /** Nothing that looks like a tag survives the removal. */
  lemma {:induction false} StripTagsLeavesNoTag(s: string)
    ensures NoTag(StripTags(s))
    decreases |s|
  {
    if s == [] {
    } else if TagAt(s, 0) {
      StripTagsLeavesNoTag(s[CloseFrom(s, 1) + 1..]);
    } else {
      var rest := StripTags(s[1..]);
      var r := [s[0]] + rest;
      StripTagsLeavesNoTag(s[1..]);
      assert r == StripTags(s);
      forall i | 0 <= i < |r| && r[i] == '<'
        ensures (i + 1 < |r| && r[i + 1] == '>') || '>' !in r[i + 1..]
      {
        if i == 0 {
          var j := CloseFrom(s, 1);
          if j == |s| {
            StripTagsChars(s[1..]);
            assert r[1..] == rest;
            assert '>' !in s[1..] by {
              forall k | 0 <= k < |s[1..]| ensures s[1..][k] != '>' { assert s[1..][k] == s[k + 1]; }
            }
          } else {
            assert j == 1;
            assert s[1..][0] == '>';
            assert !TagAt(s[1..], 0);
            assert rest == [s[1]] + StripTags(s[2..]) by { assert s[1..][1..] == s[2..]; }
            assert r[1] == '>';
          }
        } else {
          assert r[i] == rest[i - 1];
          assert r[i + 1..] == rest[i..];
        }
      }
    }
  }

  /** Text without tags is left as it is. */
  lemma {:induction false} StripTagsKeepsTagFree(s: string)
    requires NoTag(s)
    ensures StripTags(s) == s
    decreases |s|
  {
    if s != [] {
      NoTagMeansNoMatch(s, 0);
      assert NoTag(s[1..]) by {
        forall i | 0 <= i < |s[1..]| && s[1..][i] == '<'
          ensures (i + 1 < |s[1..]| && s[1..][i + 1] == '>') || '>' !in s[1..][i + 1..]
        {
          assert s[1..][i + 1..] == s[i + 2..];
        }
      }
      StripTagsKeepsTagFree(s[1..]);
    }
  }

  /** The removal is a fixed point exactly on tag-free text, so applying it
      twice is applying it once. */
  lemma StripTagsIdempotent(s: string)
    ensures StripTags(s) == s <==> NoTag(s)
    ensures StripTags(StripTags(s)) == StripTags(s)
  {
    StripTagsLeavesNoTag(s);
    StripTagsKeepsTagFree(StripTags(s));
    if NoTag(s) { StripTagsKeepsTagFree(s); }
  }

  /** Two concrete cases of `re.sub(r'<[^>]+>', '', ...)`: a tag pair is
      removed, and "<>" (nothing between the brackets) is not a tag. */
  lemma StripTagsExamples()
    ensures StripTags("<i>x</i>") == "x"
    ensures StripTags("<>") == "<>"
  {
    var s := "<i>x</i>";
    assert CloseFrom(s, 1) == 2;
    assert TagAt(s, 0);
    assert s[3..] == "x</i>";
    assert StripTags(s) == StripTags("x</i>");
    assert !TagAt("x</i>", 0);
    assert "x</i>"[1..] == "</i>";
    assert CloseFrom("</i>", 1) == 3;
    assert TagAt("</i>", 0);
    assert "</i>"[4..] == "";
    assert StripTags("x</i>") == "x" + StripTags("</i>");
    assert CloseFrom("<>", 1) == 1;
    assert StripTags("<>") == "<" + StripTags(">");
    assert StripTags(">") == ">" + StripTags("");
  }
}
