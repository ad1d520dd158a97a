/** `generate_pascal_case_from_id`, shared word for word by both page
    generators: runs of characters outside `[0-9a-zA-Z]` become one '-', the
    result is split on '-', every piece goes through `str.title()` and the
    pieces are concatenated. */
module Naming {
  import opened Text

  /** Drops the leading characters outside `[0-9a-zA-Z]`. */
  function SkipSeparators(s: string): (r: string)
    ensures |r| <= |s|
    ensures |r| > 0 ==> IsAlnum(r[0])
    decreases |s|
  {
    if |s| == 0 || IsAlnum(s[0]) then s else SkipSeparators(s[1..])
  }

  /** `re.sub("[^0-9a-zA-Z]+", "-", s)`: each maximal run of characters
      outside the class becomes a single '-'. */
  function CollapseSeparators(s: string): (r: string)
    ensures forall i :: 0 <= i < |r| ==> IsAlnum(r[i]) || r[i] == '-'
    decreases |s|
  {
    if |s| == 0 then ""
    else if IsAlnum(s[0]) then [s[0]] + CollapseSeparators(s[1..])
    else "-" + CollapseSeparators(SkipSeparators(s[1..]))
  }

  /** How `str.title()` writes one ASCII character: a letter is upper-cased
      when the previous character was not a letter and lower-cased when it
      was; anything else is kept. */
  function CaseChar(c: char, afterLetter: bool): char {
    if !IsLetter(c) then c else if afterLetter then ToLower(c) else ToUpper(c)
  }

  function TitleFrom(p: string, afterLetter: bool): (r: string)
    ensures |r| == |p|
    decreases |p|
  {
    if |p| == 0 then "" else [CaseChar(p[0], afterLetter)] + TitleFrom(p[1..], IsLetter(p[0]))
  }

  /** `str.title()` on ASCII text (digits and punctuation are uncased). */
  function Title(p: string): string {
    TitleFrom(p, false)
  }

  function TitleEach(parts: seq<string>): (r: seq<string>)
    ensures |r| == |parts|
    decreases |parts|
  {
    if |parts| == 0 then [] else [Title(parts[0])] + TitleEach(parts[1..])
  }

  /** `"".join(parts)`. */
  function Concat(parts: seq<string>): string
    decreases |parts|
  {
    if |parts| == 0 then "" else parts[0] + Concat(parts[1..])
  }

  /** `generate_pascal_case_from_id`, step by step as the source writes it. */
  function PascalCaseFromId(id: string): string {
    Concat(TitleEach(Split(CollapseSeparators(id), '-')))
  }

  /** Reference definition: one pass over the id keeping only `[0-9a-zA-Z]`
      and upper-casing exactly the letters not preceded by an ASCII letter. */
  function PascalFrom(s: string, afterLetter: bool): (r: string)
    decreases |s|
  {
    if |s| == 0 then ""
    else (if IsAlnum(s[0]) then [CaseChar(s[0], afterLetter)] else "") + PascalFrom(s[1..], IsLetter(s[0]))
  }

  /** Number of characters of `s` in `[0-9a-zA-Z]`. */
  function AlnumCount(s: string): (n: nat)
    ensures n <= |s|
    decreases |s|
  {
    if |s| == 0 then 0 else (if IsAlnum(s[0]) then 1 else 0) + AlnumCount(s[1..])
  }

  /** The title-cased pieces of a '-'-separated string, concatenated, are the
      string with its dashes dropped and `str.title()` applied across them. */
  function DropDashes(t: string, afterLetter: bool): string
    decreases |t|
  {
    if |t| == 0 then ""
    else if t[0] == '-' then DropDashes(t[1..], false)
    else [CaseChar(t[0], afterLetter)] + DropDashes(t[1..], IsLetter(t[0]))
  }

  lemma {:induction false} TitledPiecesDropDashes(t: string, afterLetter: bool)
    ensures var parts := Split(t, '-');
            TitleFrom(parts[0], afterLetter) + Concat(TitleEach(parts[1..])) == DropDashes(t, afterLetter)
    decreases |t|
  {
    if |t| > 0 {
      var rest := Split(t[1..], '-');
      TitledPiecesDropDashes(t[1..], IsLetter(t[0]));
      TitledPiecesDropDashes(t[1..], false);
      if t[0] == '-' {
        assert Split(t, '-') == [""] + rest;
        assert ([""] + rest)[1..] == rest;
        ConcatTitleEach(rest);
      } else {
        var first := [t[0]] + rest[0];
        assert Split(t, '-') == [first] + rest[1..];
        assert ([first] + rest[1..])[1..] == rest[1..];
        assert first[1..] == rest[0];
      }
    }
  }

  lemma ConcatTitleEach(parts: seq<string>)
    requires |parts| >= 1
    ensures Concat(TitleEach(parts)) == TitleFrom(parts[0], false) + Concat(TitleEach(parts[1..]))
  {
    assert TitleEach(parts)[1..] == TitleEach(parts[1..]);
  }

  lemma {:induction false} SkipSeparatorsKeepsPascal(s: string)
    ensures PascalFrom(SkipSeparators(s), false) == PascalFrom(s, false)
    decreases |s|
  {
    if |s| > 0 && !IsAlnum(s[0]) {
      SkipSeparatorsKeepsPascal(s[1..]);
    }
  }

  lemma {:induction false} CollapseThenDropDashes(s: string, afterLetter: bool)
    ensures DropDashes(CollapseSeparators(s), afterLetter) == PascalFrom(s, afterLetter)
    decreases |s|
  {
    if |s| > 0 {
      if IsAlnum(s[0]) {
        var tail := CollapseSeparators(s[1..]);
        CollapseThenDropDashes(s[1..], IsLetter(s[0]));
        assert ([s[0]] + tail)[1..] == tail;
      } else {
        var skipped := SkipSeparators(s[1..]);
        var tail := CollapseSeparators(skipped);
        CollapseThenDropDashes(skipped, false);
        SkipSeparatorsKeepsPascal(s[1..]);
        assert ("-" + tail)[1..] == tail;
      }
    }
  }

  /** The source's pipeline (substitute, split, title, join) computes the
      one-pass reference definition. */
  lemma PascalCaseMatchesReference(id: string)
    ensures PascalCaseFromId(id) == PascalFrom(id, false)
  {
    var t := CollapseSeparators(id);
    ConcatTitleEach(Split(t, '-'));
    TitledPiecesDropDashes(t, false);
    CollapseThenDropDashes(id, false);
  }

  lemma {:induction false} PascalFromShape(s: string, afterLetter: bool)
    ensures var r := PascalFrom(s, afterLetter);
            && |r| == AlnumCount(s)
            && (forall i :: 0 <= i < |r| ==> IsAlnum(r[i]))
            && (!afterLetter && |r| > 0 ==> !IsLower(r[0]))
    decreases |s|
  {
    if |s| > 0 {
      PascalFromShape(s[1..], IsLetter(s[0]));
      if !IsAlnum(s[0]) {
        PascalFromShape(s[1..], false);
      }
    }
  }

  /** What `generate_pascal_case_from_id` returns: only characters of
      `[0-9a-zA-Z]` (so never '-'), one per such character of the id, hence
      never longer than the id and empty for the empty id; its first
      character is never a lower-case letter. */
  lemma PascalCaseShape(id: string)
    ensures var r := PascalCaseFromId(id);
            && (forall i :: 0 <= i < |r| ==> IsAlnum(r[i]))
            && '-' !in r
            && |r| == AlnumCount(id) <= |id|
            && (id == "" ==> r == "")
            && (|r| > 0 ==> !IsLower(r[0]))
  {
    PascalCaseMatchesReference(id);
    PascalFromShape(id, false);
  }

  /** An id that starts with a letter gives a non-empty name starting with
      that letter in upper case. */
  lemma PascalCaseOfLetterStart(id: string)
    requires |id| > 0 && IsLetter(id[0])
    ensures |PascalCaseFromId(id)| > 0
    ensures PascalCaseFromId(id)[0] == ToUpper(id[0])
  {
    PascalCaseMatchesReference(id);
  }
}
