/**
 Slugs: the chain of replacements that turns text into a slug, and the search for a free one.
 */
module Slugs {
  import opened Characters
  import opened Decimals

  /** A lowercase ASCII letter or a digit. */
  predicate IsPlain(c: char) {
    'a' <= c <= 'z' || '0' <= c <= '9'
  }

  predicate IsGap(c: char) {
    IsSpace(c) || c == '_' || c == '-'
  }

  // ---------------------------------------------------------------- the replacements

  /** Drops what is not a word character, a space or a hyphen. */
  function Strip(s: string): string {
    if s == "" then ""
    else if IsWord(s[0]) || IsSpace(s[0]) || s[0] == '-' then [s[0]] + Strip(s[1..])
    else Strip(s[1..])
  }

  /** Replaces each maximal run of characters of a class by one hyphen. */
  function Squeeze(s: string, run: char -> bool): string {
    if s == "" then ""
    else if !run(s[0]) then [s[0]] + Squeeze(s[1..], run)
    else if |s| > 1 && run(s[1]) then Squeeze(s[1..], run)
    else "-" + Squeeze(s[1..], run)
  }

  function DropHyphensLeft(s: string): string {
    if s != "" && s[0] == '-' then DropHyphensLeft(s[1..]) else s
  }

  function DropHyphensRight(s: string): string {
    if s != "" && s[|s| - 1] == '-' then DropHyphensRight(s[..|s| - 1]) else s
  }

  const SPACING: char -> bool := c => IsSpace(c) || c == '_'
  const HYPHEN: char -> bool := c => c == '-'
  const GAP: char -> bool := c => IsGap(c)

  /** `toSlug`; `lower` is the language's Unicode lower-casing. */
  function ToSlug(lower: string -> string, text: string): string {
    DropHyphensRight(DropHyphensLeft(Squeeze(Squeeze(Strip(Trim(lower(text))), SPACING), HYPHEN)))
  }

  // ---------------------------------------------------------------- one pass

  /** The reference: keep the plain characters, with one hyphen between two of them exactly where some
      gap stood between them. */
  function OnePass(s: string, begun: bool, gap: bool): string {
    if s == "" then ""
    else if IsPlain(s[0]) then (if begun && gap then "-" else "") + [s[0]] + OnePass(s[1..], true, false)
    else OnePass(s[1..], begun, gap || IsGap(s[0]))
  }

  predicate NoCapitals(s: string) {
    forall i :: 0 <= i < |s| ==> !('A' <= s[i] <= 'Z')
  }

  /** Squeezing spaces first and hyphens afterwards is squeezing all gaps at once. */
  lemma {:induction false} SqueezeTwice(s: string)
    ensures Squeeze(Squeeze(s, SPACING), HYPHEN) == Squeeze(s, GAP)
    ensures s != "" ==> Squeeze(s, SPACING) != "" && (Squeeze(s, SPACING)[0] == '-' <==> IsGap(s[0]))
  {
    if s != "" {
      SqueezeTwice(s[1..]);
      var rest := Squeeze(s[1..], SPACING);
      if !SPACING(s[0]) {
        assert ([s[0]] + rest)[1..] == rest;
      } else if !(|s| > 1 && SPACING(s[1])) {
        assert ("-" + rest)[1..] == rest;
        assert |s| > 1 ==> rest != "";
      }
    }
  }

  function Stripped(s: string, gap: bool): string {
    (if gap then "-" else "") + Strip(s)
  }

  /** A gap before a gap changes nothing. */
  lemma GapAbsorbs(c: char, s: string, gap: bool)
    requires IsGap(c)
    ensures Squeeze((if gap then "-" else "") + [c] + s, GAP) == Squeeze("-" + s, GAP)
  {
  }

  lemma PlainStays(c: char, s: string, gap: bool)
    requires IsPlain(c)
    ensures Squeeze((if gap then "-" else "") + [c] + s, GAP) == (if gap then "-" else "") + [c] + Squeeze(s, GAP)
  {
  }

  lemma {:induction false} KeepsRight(x: string, c: char, s: string)
    requires c != '-'
    ensures DropHyphensRight(x + [c] + s) == x + [c] + DropHyphensRight(s)
    decreases |s|
  {
    if s == "" {
      assert x + [c] + s == x + [c];
    } else if s[|s| - 1] == '-' {
      assert (x + [c] + s)[..|x + [c] + s| - 1] == x + [c] + s[..|s| - 1];
      KeepsRight(x, c, s[..|s| - 1]);
    }
  }

  /** After the first plain character, squeezing and trimming gives what the one pass gives. */
  lemma {:induction false} BegunPass(s: string, gap: bool)
    requires NoCapitals(s)
    ensures DropHyphensRight(Squeeze(Stripped(s, gap), GAP)) == OnePass(s, true, gap)
    decreases |s|
  {
    if s == "" {
      assert Stripped(s, gap) == if gap then "-" else "";
    } else {
      var rest := s[1..];
      if IsPlain(s[0]) {
        assert Stripped(s, gap) == (if gap then "-" else "") + [s[0]] + Strip(rest);
        PlainStays(s[0], Strip(rest), gap);
        KeepsRight(if gap then "-" else "", s[0], Squeeze(Strip(rest), GAP));
        BegunPass(rest, false);
        assert Stripped(rest, false) == Strip(rest);
      } else if IsGap(s[0]) {
        assert Stripped(s, gap) == (if gap then "-" else "") + [s[0]] + Strip(rest);
        GapAbsorbs(s[0], Strip(rest), gap);
        BegunPass(rest, true);
      } else {
        BegunPass(rest, gap);
      }
    }
  }

  lemma {:induction false} DropRightEmptyOrStarts(s: string)
    ensures DropHyphensRight("-" + s) == if DropHyphensRight(s) == "" then "" else "-" + DropHyphensRight(s)
    decreases |s|
  {
    if s == "" {
      assert "-" + s == "-";
    } else if s[|s| - 1] == '-' {
      assert ("-" + s)[..|"-" + s| - 1] == "-" + s[..|s| - 1];
      DropRightEmptyOrStarts(s[..|s| - 1]);
    }
  }

  /** Leading gaps disappear. */
  lemma {:induction false} FreshPass(s: string, gap: bool)
    requires NoCapitals(s)
    ensures DropHyphensLeft(DropHyphensRight(Squeeze(Strip(s), GAP))) == OnePass(s, false, gap)
    decreases |s|
  {
    if s != "" {
      var rest := s[1..];
      if IsPlain(s[0]) {
        PlainStays(s[0], Strip(rest), false);
        assert "" + [s[0]] + Strip(rest) == [s[0]] + Strip(rest);
        KeepsRight("", s[0], Squeeze(Strip(rest), GAP));
        assert "" + [s[0]] + Squeeze(Strip(rest), GAP) == [s[0]] + Squeeze(Strip(rest), GAP);
        BegunPass(rest, false);
        assert Stripped(rest, false) == Strip(rest);
      } else if IsGap(s[0]) {
        FreshPass(rest, true);
        GapFirst(s[0], Strip(rest));
      } else {
        FreshPass(rest, gap);
      }
    }
  }

  lemma GapFirst(c: char, s: string)
    requires IsGap(c)
    ensures DropHyphensLeft(DropHyphensRight(Squeeze([c] + s, GAP))) == DropHyphensLeft(DropHyphensRight(Squeeze(s, GAP)))
  {
    assert ([c] + s)[1..] == s;
    if !(s != "" && GAP(s[0])) {
      DropRightEmptyOrStarts(Squeeze(s, GAP));
      var d := DropHyphensRight(Squeeze(s, GAP));
      assert d != "" ==> ("-" + d)[1..] == d;
    }
  }

  /** The two hyphen trims commute. */
  lemma {:induction false} TrimsCommute(s: string)
    ensures DropHyphensRight(DropHyphensLeft(s)) == DropHyphensLeft(DropHyphensRight(s))
    decreases |s|
  {
    if s != "" && s[0] == '-' {
      TrimsCommute(s[1..]);
      assert s == "-" + s[1..];
      DropRightEmptyOrStarts(s[1..]);
      var d := DropHyphensRight(s[1..]);
      assert d != "" ==> ("-" + d)[1..] == d;
    } else if s != "" {
      KeepsRight("", s[0], s[1..]);
      assert s == "" + [s[0]] + s[1..];
    }
  }

  // ---------------------------------------------------------------- trimming spaces first

  lemma {:induction false} TrimLeftSame(s: string, gap: bool)
    ensures OnePass(TrimLeft(s), false, gap) == OnePass(s, false, gap)
    ensures OnePass(s, false, true) == OnePass(s, false, false)
    decreases |s|
  {
    if s != "" {
      TrimLeftSame(s[1..], gap);
    }
  }

  lemma {:induction false} GapLast(s: string, c: char, begun: bool, gap: bool)
    requires IsGap(c)
    ensures OnePass(s + [c], begun, gap) == OnePass(s, begun, gap)
    decreases |s|
  {
    if s != "" {
      assert (s + [c])[1..] == s[1..] + [c];
      if IsPlain(s[0]) { GapLast(s[1..], c, true, false); } else { GapLast(s[1..], c, begun, gap || IsGap(s[0])); }
    }
  }

  lemma {:induction false} TrimRightSame(s: string, begun: bool, gap: bool)
    ensures OnePass(TrimRight(s), begun, gap) == OnePass(s, begun, gap)
    decreases |s|
  {
    if s != "" && IsSpace(s[|s| - 1]) {
      TrimRightSame(s[..|s| - 1], begun, gap);
      GapLast(s[..|s| - 1], s[|s| - 1], begun, gap);
      assert s == s[..|s| - 1] + [s[|s| - 1]];
    }
  }

  lemma {:induction false} TrimKeepsNoCapitals(s: string)
    requires NoCapitals(s)
    ensures NoCapitals(TrimLeft(s)) && NoCapitals(TrimRight(s))
    decreases |s|
  {
    if s != "" {
      TrimKeepsNoCapitals(s[1..]);
      TrimKeepsNoCapitals(s[..|s| - 1]);
    }
  }

  /** The four replacements and two trims together are one pass over the lower-cased text. */
  lemma SlugIsOnePass(lower: string -> string, text: string)
    requires NoCapitals(lower(text))
    ensures ToSlug(lower, text) == OnePass(lower(text), false, false)
  {
    var t := lower(text);
    TrimKeepsNoCapitals(t);
    TrimKeepsNoCapitals(TrimLeft(t));
    SqueezeTwice(Strip(Trim(t)));
    TrimsCommute(Squeeze(Strip(Trim(t)), GAP));
    FreshPass(Trim(t), false);
    TrimRightSame(TrimLeft(t), false, false);
    TrimLeftSame(t, false);
  }

  // ---------------------------------------------------------------- canonical form

  /** Lowercase ASCII letters, digits and single inner hyphens. */
  predicate Canonical(s: string) {
    && (forall i :: 0 <= i < |s| ==> IsPlain(s[i]) || s[i] == '-')
    && (s != "" ==> s[0] != '-' && s[|s| - 1] != '-')
    && (forall i :: 0 <= i < |s| - 1 ==> !(s[i] == '-' && s[i + 1] == '-'))
  }

  /** What may follow a plain character: a canonical string, with or without a hyphen in front. */
  predicate CanonicalRest(s: string) {
    Canonical(s) || (s != "" && s[0] == '-' && s[1..] != "" && Canonical(s[1..]))
  }

  lemma ConsCanonical(c: char, s: string)
    requires IsPlain(c) && CanonicalRest(s)
    ensures Canonical([c] + s)
  {
  }

  lemma {:induction false} OnePassCanonical(s: string, begun: bool, gap: bool)
    ensures CanonicalRest(OnePass(s, begun, gap))
    ensures !begun ==> Canonical(OnePass(s, begun, gap))
    decreases |s|
  {
    if s != "" {
      if IsPlain(s[0]) {
        OnePassCanonical(s[1..], true, false);
        var rest := OnePass(s[1..], true, false);
        ConsCanonical(s[0], rest);
        var r := [s[0]] + rest;
        assert ("-" + r)[1..] == r;
        assert "" + [s[0]] + rest == r && "-" + [s[0]] + rest == "-" + r;
      } else {
        OnePassCanonical(s[1..], begun, gap || IsGap(s[0]));
      }
    }
  }

  lemma TailCanonical(s: string)
    requires s != "" && Canonical(s)
    ensures IsPlain(s[0]) && CanonicalRest(s[1..])
  {
  }

  lemma PassPlain(s: string, begun: bool, gap: bool)
    requires s != "" && IsPlain(s[0])
    ensures var rest := [s[0]] + OnePass(s[1..], true, false);
            OnePass(s, begun, gap) == if begun && gap then "-" + rest else rest
  {
  }

  lemma PassHyphen(s: string)
    requires s != "" && s[0] == '-'
    ensures OnePass(s, true, false) == OnePass(s[1..], true, true)
  {
  }

  /** A canonical string passes unchanged. */
  lemma {:induction false} CanonicalPasses(s: string, begun: bool)
    requires Canonical(s)
    ensures OnePass(s, begun, false) == s
    ensures begun && s != "" ==> OnePass(s, begun, true) == "-" + s
    decreases |s|, 1
  {
    if s != "" {
      TailCanonical(s);
      assert OnePass(s[1..], true, false) == s[1..] by { RestPasses(s, s[1..]); }
      PassPlain(s, begun, false);
      PassPlain(s, begun, true);
      assert s == [s[0]] + s[1..];
    }
  }

  lemma {:induction false} RestPasses(s: string, r: string)
    requires CanonicalRest(r) && |r| < |s|
    ensures OnePass(r, true, false) == r
    decreases |s|, 0
  {
    if Canonical(r) {
      CanonicalPasses(r, true);
    } else {
      CanonicalPasses(r[1..], true);
      PassHyphen(r);
      assert r == "-" + r[1..];
    }
  }

  /** What the language's lower-casing does to ASCII text. */
  ghost predicate LowerCases(lower: string -> string) {
    && (forall t :: NoCapitals(lower(t)))
    && (forall t :: Canonical(t) ==> lower(t) == t)
  }

  /** Every slug is canonical, and making a slug of a slug changes nothing. */
  lemma SlugCanonical(lower: string -> string, text: string)
    requires LowerCases(lower)
    ensures Canonical(ToSlug(lower, text))
    ensures ToSlug(lower, ToSlug(lower, text)) == ToSlug(lower, text)
  {
    var slug := ToSlug(lower, text);
    SlugIsOnePass(lower, text);
    OnePassCanonical(lower(text), false, false);
    SlugIsOnePass(lower, slug);
    CanonicalPasses(slug, false);
  }

  /** The letters and digits of a text, in order. */
  function Plain(s: string): string {
    if s == "" then "" else (if IsPlain(s[0]) then [s[0]] else "") + Plain(s[1..])
  }

  lemma {:induction false} PlainConcat(s: string, t: string)
    ensures Plain(s + t) == Plain(s) + Plain(t)
    decreases |s|
  {
    if s == "" {
      assert s + t == t;
    } else {
      PlainConcat(s[1..], t);
      var first := if IsPlain(s[0]) then [s[0]] else "";
      assert Plain(s + t) == first + Plain(s[1..] + t) by { assert (s + t)[1..] == s[1..] + t; }
      assert first + (Plain(s[1..]) + Plain(t)) == first + Plain(s[1..]) + Plain(t);
    }
  }

  lemma {:induction false} OnePassKeepsPlain(s: string, begun: bool, gap: bool)
    ensures Plain(OnePass(s, begun, gap)) == Plain(s)
    decreases |s|
  {
    if s != "" {
      if IsPlain(s[0]) {
        var rest := OnePass(s[1..], true, false);
        OnePassKeepsPlain(s[1..], true, false);
        PlainConcat(if begun && gap then "-" else "", [s[0]] + rest);
        assert (if begun && gap then "-" else "") + [s[0]] + rest == (if begun && gap then "-" else "") + ([s[0]] + rest);
        assert ([s[0]] + rest)[1..] == rest;
      } else {
        OnePassKeepsPlain(s[1..], begun, gap || IsGap(s[0]));
      }
    }
  }

  /** A slug keeps every letter and digit of the text, in order. */
  lemma SlugKeepsPlain(lower: string -> string, text: string)
    requires NoCapitals(lower(text))
    ensures Plain(ToSlug(lower, text)) == Plain(lower(text))
  {
    SlugIsOnePass(lower, text);
    OnePassKeepsPlain(lower(text), false, false);
  }

  // ---------------------------------------------------------------- a free slug

  /** base, base-1, base-2, … */
  function Candidate(base: string, k: nat): string {
    if k == 0 then base else base + "-" + Decimal(k)
  }

  lemma CandidatesDistinct(base: string, i: nat, j: nat)
    requires Candidate(base, i) == Candidate(base, j)
    ensures i == j
  {
    if i > 0 && j > 0 {
      assert Candidate(base, i)[|base| + 1..] == Decimal(i) && Candidate(base, j)[|base| + 1..] == Decimal(j);
      DecimalInjective(i, j);
    } else {
      assert |base + "-" + Decimal(i)| > |base| && |base + "-" + Decimal(j)| > |base|;
    }
  }

  function Candidates(base: string, n: nat): set<string> {
    set k | 0 <= k < n :: Candidate(base, k)
  }

  lemma {:induction false} CountCandidates(base: string, n: nat)
    ensures |Candidates(base, n)| == n
  {
    if n > 0 {
      CountCandidates(base, n - 1);
      if Candidate(base, n - 1) in Candidates(base, n - 1) {
        var k :| 0 <= k < n - 1 && Candidate(base, k) == Candidate(base, n - 1);
        CandidatesDistinct(base, k, n - 1);
      }
      assert Candidates(base, n) == Candidates(base, n - 1) + {Candidate(base, n - 1)};
    }
  }

  /** Only as many candidates can be taken as there are taken slugs. */
  lemma TakenCandidates(base: string, n: nat, taken: set<string>)
    requires forall k :: 0 <= k < n ==> Candidate(base, k) in taken
    ensures n <= |taken|
  {
    CountCandidates(base, n);
    assert Candidates(base, n) <= taken;
    assert taken == Candidates(base, n) + (taken - Candidates(base, n));
  }

  /** `makeUniqueSlug`: the first candidate that is not taken, found within |taken| + 1 checks. */
  method MakeUniqueSlug(lower: string -> string, text: string, taken: set<string>) returns (slug: string, ghost n: nat)
    ensures slug == Candidate(ToSlug(lower, text), n) && slug !in taken
    ensures forall k :: 0 <= k < n ==> Candidate(ToSlug(lower, text), k) in taken
    ensures n + 1 <= |taken| + 1
  {
    var base := ToSlug(lower, text);
    slug := base;
    var counter := 1;
    n := 0;
    while slug in taken
      invariant counter == n + 1 && slug == Candidate(base, n)
      invariant forall k :: 0 <= k < n ==> Candidate(base, k) in taken
      invariant n <= |taken|
      decreases |taken| - n
    {
      TakenCandidates(base, n + 1, taken);
      slug := base + "-" + Decimal(counter);
      counter := counter + 1;
      n := n + 1;
    }
  }
}
