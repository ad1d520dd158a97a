/** String helpers with the meaning Python gives them on ASCII text:
    character classes, case mapping, `in` on strings, `str.replace(old, "")`,
    `str.split(sep)`, `sep.join(parts)` and decimal rendering/parsing of
    naturals. */
module Text {
  import opened Outcomes

  predicate IsUpper(c: char) { 'A' <= c <= 'Z' }
  predicate IsLower(c: char) { 'a' <= c <= 'z' }
  predicate IsLetter(c: char) { IsUpper(c) || IsLower(c) }
  predicate IsDigit(c: char) { '0' <= c <= '9' }

  /** The class `[0-9a-zA-Z]`. */
  predicate IsAlnum(c: char) { IsLetter(c) || IsDigit(c) }

  function ToLower(c: char): (r: char)
    ensures IsUpper(c) ==> IsLower(r)
    ensures !IsUpper(c) ==> r == c
    ensures IsLetter(r) <==> IsLetter(c)
    ensures IsAlnum(r) <==> IsAlnum(c)
  {
    if IsUpper(c) then (c as int + 32) as char else c
  }

  function ToUpper(c: char): (r: char)
    ensures IsLower(c) ==> IsUpper(r)
    ensures !IsLower(c) ==> r == c
    ensures IsLetter(r) <==> IsLetter(c)
    ensures IsAlnum(r) <==> IsAlnum(c)
  {
    if IsLower(c) then (c as int - 32) as char else c
  }

  predicate IsPrefix(p: string, s: string) {
    |p| <= |s| && s[..|p|] == p
  }

  /** `pat` occurs in `s` starting at position `i`. */
  predicate OccursAt(s: string, pat: string, i: int) {
    0 <= i <= |s| - |pat| && s[i..i + |pat|] == pat
  }

  /** Python's `pat in s` for two strings: `pat` occurs at some position. */
  predicate Contains(s: string, pat: string) {
    exists i :: 0 <= i <= |s| && OccursAt(s, pat, i)
  }

  /** Every character of a contained pattern occurs in the string. */
  lemma ContainedCharsOccur(s: string, pat: string)
    ensures Contains(s, pat) ==> forall c :: c in pat ==> c in s
  {
    if Contains(s, pat) {
      var i :| 0 <= i <= |s| && OccursAt(s, pat, i);
      forall c | c in pat
        ensures c in s
      {
        var k :| 0 <= k < |pat| && pat[k] == c;
        assert s[i + k] == c;
      }
    }
  }

  /** A pattern with a character the string lacks is not contained. */
  lemma ContainsKeepsChars(s: string, pat: string, c: char)
    requires c in pat && c !in s
    ensures !Contains(s, pat)
  {
    ContainedCharsOccur(s, pat);
  }

  /** A string whose letters are all lower case contains no pattern that
      starts with a character that is not a lower-case letter. */
  lemma LowerCaseExcludes(s: string, pat: string)
    requires forall i :: 0 <= i < |s| ==> IsLower(s[i])
    requires |pat| > 0 && !IsLower(pat[0])
    ensures !Contains(s, pat)
  {
    ContainedCharsOccur(s, pat);
  }

  /** A prefix is contained, and so is anything contained in the tail. */
  lemma ContainsShift(s: string, pat: string)
    ensures IsPrefix(pat, s) ==> Contains(s, pat)
    ensures |s| > 0 && Contains(s[1..], pat) ==> Contains(s, pat)
  {
    if IsPrefix(pat, s) {
      assert OccursAt(s, pat, 0);
    }
    if |s| > 0 && Contains(s[1..], pat) {
      var i :| 0 <= i <= |s[1..]| && OccursAt(s[1..], pat, i);
      assert s[i + 1..i + 1 + |pat|] == s[1..][i..i + |pat|];
      assert OccursAt(s, pat, i + 1);
    }
  }

  /** Python's `s.replace(pat, "")`: every non-overlapping occurrence of
      `pat`, found left to right, is deleted; an empty `pat` changes nothing. */
  function RemoveAll(s: string, pat: string): (r: string)
    ensures |r| <= |s|
    decreases |s|
  {
    if |pat| == 0 || |s| == 0 then s
    else if IsPrefix(pat, s) then RemoveAll(s[|pat|..], pat)
    else [s[0]] + RemoveAll(s[1..], pat)
  }

  /** Removing a pattern that does not occur leaves the string unchanged. */
  lemma {:induction false} RemoveAllAbsent(s: string, pat: string)
    requires !Contains(s, pat)
    ensures RemoveAll(s, pat) == s
    decreases |s|
  {
    if |pat| > 0 && |s| > 0 {
      ContainsShift(s, pat);
      RemoveAllAbsent(s[1..], pat);
    }
  }

  /** How many occurrences `RemoveAll` deletes. */
  function RemovedCount(s: string, pat: string): nat
    decreases |s|
  {
    if |pat| == 0 || |s| == 0 then 0
    else if IsPrefix(pat, s) then 1 + RemovedCount(s[|pat|..], pat)
    else RemovedCount(s[1..], pat)
  }

  /** Only whole occurrences are deleted: the length drops by the pattern's
      length once per deleted occurrence. */
  lemma {:induction false} RemoveAllDeletesWholeOccurrences(s: string, pat: string)
    ensures |s| == |RemoveAll(s, pat)| + |pat| * RemovedCount(s, pat)
    decreases |s|
  {
    if |pat| > 0 && |s| > 0 {
      if IsPrefix(pat, s) {
        var rest := s[|pat|..];
        var k := RemovedCount(rest, pat);
        RemoveAllDeletesWholeOccurrences(rest, pat);
        assert RemoveAll(s, pat) == RemoveAll(rest, pat);
        assert RemovedCount(s, pat) == 1 + k;
        MulSucc(|pat|, k);
        assert |s| == |pat| + |rest|;
      } else {
        RemoveAllDeletesWholeOccurrences(s[1..], pat);
        assert |RemoveAll(s, pat)| == 1 + |RemoveAll(s[1..], pat)|;
        assert RemovedCount(s, pat) == RemovedCount(s[1..], pat);
      }
    }
  }

  lemma MulSucc(a: nat, k: nat)
    ensures a * (1 + k) == a + a * k
  {
  }

  /** Python's `s.split(sep)` for a one-character separator. */
  function Split(s: string, sep: char): (parts: seq<string>)
    ensures |parts| >= 1
    ensures forall i :: 0 <= i < |parts| ==> sep !in parts[i]
    decreases |s|
  {
    if |s| == 0 then [""]
    else
      var rest := Split(s[1..], sep);
      if s[0] == sep then [""] + rest
      else [[s[0]] + rest[0]] + rest[1..]
  }

  /** Python's `sep.join(parts)`. */
  function Join(parts: seq<string>, sep: string): string
    decreases |parts|
  {
    if |parts| == 0 then ""
    else if |parts| == 1 then parts[0]
    else parts[0] + sep + Join(parts[1..], sep)
  }

  /** Joining the pieces of a split with the same separator gives back the
      original string. */
  lemma {:induction false} JoinSplit(s: string, sep: char)
    ensures Join(Split(s, sep), [sep]) == s
    decreases |s|
  {
    if |s| > 0 {
      var rest := Split(s[1..], sep);
      JoinSplit(s[1..], sep);
      if s[0] == sep {
        assert Split(s, sep) == [""] + rest;
        assert ([""] + rest)[1..] == rest;
      } else {
        var parts := [[s[0]] + rest[0]] + rest[1..];
        assert Split(s, sep) == parts;
        if |rest| == 1 {
          assert Join(rest, [sep]) == rest[0];
        } else {
          assert parts[1..] == rest[1..];
          assert Join(rest, [sep]) == rest[0] + [sep] + Join(rest[1..], [sep]);
        }
      }
    }
  }

  lemma {:induction false} SplitSeparatorFree(p: string, sep: char)
    requires sep !in p
    ensures Split(p, sep) == [p]
    decreases |p|
  {
    if |p| > 0 {
      SplitSeparatorFree(p[1..], sep);
      assert [p[0]] + p[1..] == p;
    }
  }

  lemma {:induction false} SplitAfterPiece(p: string, sep: char, tail: string)
    requires sep !in p
    ensures Split(p + [sep] + tail, sep) == [p] + Split(tail, sep)
    decreases |p|
  {
    var s := p + [sep] + tail;
    if |p| == 0 {
      assert s == [sep] + tail;
      assert s[1..] == tail;
    } else {
      SplitAfterPiece(p[1..], sep, tail);
      assert s[1..] == p[1..] + [sep] + tail;
      assert [p[0]] + p[1..] == p;
    }
  }

  /** Splitting a join recovers the pieces when none contains the separator. */
  lemma {:induction false} SplitJoin(parts: seq<string>, sep: char)
    requires |parts| >= 1
    requires forall i :: 0 <= i < |parts| ==> sep !in parts[i]
    ensures Split(Join(parts, [sep]), sep) == parts
    decreases |parts|
  {
    if |parts| == 1 {
      SplitSeparatorFree(parts[0], sep);
    } else {
      SplitJoin(parts[1..], sep);
      SplitAfterPiece(parts[0], sep, Join(parts[1..], [sep]));
      assert [parts[0]] + parts[1..] == parts;
    }
  }

  function DigitChar(d: nat): (c: char)
    requires d < 10
    ensures IsDigit(c)
  {
    ('0' as int + d) as char
  }

  function DigitValue(c: char): (d: nat)
    requires IsDigit(c)
    ensures d < 10
  {
    c as int - '0' as int
  }

  predicate AllDigits(s: string) {
    forall i :: 0 <= i < |s| ==> IsDigit(s[i])
  }

  /** Python's `str(n)` for a natural number. */
  function NatToDecimal(n: nat): (r: string)
    ensures |r| >= 1
    ensures AllDigits(r)
    decreases n
  {
    if n < 10 then [DigitChar(n)] else NatToDecimal(n / 10) + [DigitChar(n % 10)]
  }

  function DigitsValue(s: string): nat
    requires AllDigits(s)
    decreases |s|
  {
    if |s| == 0 then 0 else DigitsValue(s[..|s| - 1]) * 10 + DigitValue(s[|s| - 1])
  }

  /** A non-empty string of decimal digits, read as a natural number. */
  function ParseDecimal(s: string): Option<nat> {
    if |s| > 0 && AllDigits(s) then Some(DigitsValue(s)) else None
  }

  /** Rendering a natural and parsing it back gives the same number. */
  lemma {:induction false} ParseDecimalRoundTrip(n: nat)
    ensures ParseDecimal(NatToDecimal(n)) == Some(n)
    decreases n
  {
    var s := NatToDecimal(n);
    if n >= 10 {
      var prefix := NatToDecimal(n / 10);
      ParseDecimalRoundTrip(n / 10);
      assert s == prefix + [DigitChar(n % 10)];
      assert s[..|s| - 1] == prefix;
      assert DigitValue(s[|s| - 1]) == n % 10;
      assert DigitsValue(s) == DigitsValue(prefix) * 10 + n % 10;
      assert DigitsValue(prefix) == n / 10;
    }
  }

  /** Different naturals render differently. */
  lemma NatToDecimalInjective(m: nat, n: nat)
    requires NatToDecimal(m) == NatToDecimal(n)
    ensures m == n
  {
    ParseDecimalRoundTrip(m);
    ParseDecimalRoundTrip(n);
  }
}
