/**
 Text with {{placeholders}}: the scanner behind the regular expression, and substitution.
 */
module TemplateText {
  import opened Options
  import opened Characters

  datatype Match = Match(length: nat, name: string)

  function SkipSpaces(s: string): string {
    if s != "" && IsSpace(s[0]) then SkipSpaces(s[1..]) else s
  }

  function TakeName(s: string): string {
    if s != "" && IsWord(s[0]) then [s[0]] + TakeName(s[1..]) else ""
  }

  lemma {:induction false} SkipSpacesAt(s: string, n: nat)
    requires n < |s| && !IsSpace(s[n]) && forall i :: 0 <= i < n ==> IsSpace(s[i])
    ensures SkipSpaces(s) == s[n..]
    decreases n
  {
    if n > 0 {
      SkipSpacesAt(s[1..], n - 1);
    }
  }

  lemma {:induction false} SkipSpacesStops(s: string) returns (n: nat)
    ensures n <= |s| && SkipSpaces(s) == s[n..] && forall i :: 0 <= i < n ==> IsSpace(s[i])
    decreases |s|
  {
    n := 0;
    if s != "" && IsSpace(s[0]) {
      var m := SkipSpacesStops(s[1..]);
      n := m + 1;
      forall i | 0 <= i < n ensures IsSpace(s[i]) {
        assert i > 0 ==> s[i] == s[1..][i - 1];
      }
    }
  }

  lemma {:induction false} TakeNameAt(s: string, n: nat)
    requires n < |s| && !IsWord(s[n]) && forall i :: 0 <= i < n ==> IsWord(s[i])
    ensures TakeName(s) == s[..n]
    decreases n
  {
    if n > 0 {
      TakeNameAt(s[1..], n - 1);
      assert s[..n] == [s[0]] + s[1..][..n - 1];
    }
  }

  lemma {:induction false} TakeNameIsPrefix(s: string)
    ensures TakeName(s) <= s && forall i :: 0 <= i < |TakeName(s)| ==> IsWord(TakeName(s)[i])
    decreases |s|
  {
    if s != "" && IsWord(s[0]) {
      TakeNameIsPrefix(s[1..]);
      assert s == [s[0]] + s[1..];
    }
  }

  // ---------------------------------------------------------------- placeholders

  /** Two braces, spaces, a name, spaces, two braces. */
  predicate Form(s: string, a: nat, b: nat, name: string) {
    && |s| == 4 + a + |name| + b && |name| > 0
    && s[0] == '{' && s[1] == '{' && s[|s| - 2] == '}' && s[|s| - 1] == '}'
    && (forall i :: 2 <= i < 2 + a ==> IsSpace(s[i]))
    && s[2 + a..2 + a + |name|] == name && (forall i :: 0 <= i < |name| ==> IsWord(name[i]))
    && (forall i :: 2 + a + |name| <= i < 2 + a + |name| + b ==> IsSpace(s[i]))
  }

  ghost predicate IsPlaceholder(s: string, name: string) {
    exists a: nat, b: nat :: Form(s, a, b, name)
  }

  /** The match of the regular expression at the start of `text`, if there is one. */
  function MatchPrefix(text: string): Option<Match> {
    if !("{{" <= text) then None
    else
      var inner := SkipSpaces(text[2..]);
      var name := TakeName(inner);
      TakeNameIsPrefix(inner);
      var rest := SkipSpaces(inner[|name|..]);
      if name != "" && "}}" <= rest && |rest| <= |text| + 2 then Some(Match(|text| - |rest| + 2, name)) else None
  }

  /** What is matched is a placeholder with that name. */
  lemma MatchSound(text: string)
    requires MatchPrefix(text).Some?
    ensures var m := MatchPrefix(text).value; 5 <= m.length <= |text| && IsPlaceholder(text[..m.length], m.name)
  {
    var m := MatchPrefix(text).value;
    var a := SkipSpacesStops(text[2..]);
    var inner := SkipSpaces(text[2..]);
    TakeNameIsPrefix(inner);
    var b := SkipSpacesStops(inner[|m.name|..]);
    var rest := SkipSpaces(inner[|m.name|..]);
    MatchedForm(text, a, b, m.name, inner, rest);
  }

  lemma MatchedForm(text: string, a: nat, b: nat, name: string, inner: string, rest: string)
    requires "{{" <= text && a <= |text[2..]| && inner == text[2..][a..]
    requires forall i :: 0 <= i < a ==> IsSpace(text[2..][i])
    requires name != "" && name <= inner && forall i :: 0 <= i < |name| ==> IsWord(name[i])
    requires b <= |inner[|name|..]| && rest == inner[|name|..][b..] && "}}" <= rest
    requires forall i :: 0 <= i < b ==> IsSpace(inner[|name|..][i])
    ensures 5 <= |text| - |rest| + 2 <= |text|
    ensures Form(text[..|text| - |rest| + 2], a, b, name)
  {
  }

  /** Whatever is a placeholder at the start of the text is what is matched: the expression can match in
      one way only. */
  lemma MatchComplete(text: string, n: nat, name: string)
    requires n <= |text| && IsPlaceholder(text[..n], name)
    ensures MatchPrefix(text) == Some(Match(n, name))
  {
    var s := text[..n];
    var a: nat, b: nat :| Form(s, a, b, name);
    var inner := text[2..][a..];
    InnerStarts(s, a, b, name, text);
    NameEnds(s, a, b, name, inner, text);
    TakeNameAt(inner, |name|);
    BracesFollow(s, a, b, name, text);
    assert inner[|name|..] == text[2 + a + |name|..];
    assert s[n - 2] == text[n - 2..][0] && s[n - 1] == text[n - 2..][1];
    MatchAssembled(text, inner, name, text[n - 2..]);
  }

  lemma MatchAssembled(text: string, inner: string, name: string, rest: string)
    requires "{{" <= text && SkipSpaces(text[2..]) == inner && TakeName(inner) == name && name != ""
    requires |name| <= |inner| && SkipSpaces(inner[|name|..]) == rest && "}}" <= rest && |rest| <= |text|
    ensures MatchPrefix(text) == Some(Match(|text| - |rest| + 2, name))
  {
  }

  lemma InnerStarts(s: string, a: nat, b: nat, name: string, text: string)
    requires s <= text && Form(s, a, b, name)
    ensures SkipSpaces(text[2..]) == text[2..][a..]
  {
    var after := text[2..];
    forall i | 0 <= i < a ensures IsSpace(after[i]) { assert after[i] == s[i + 2]; }
    assert after[a] == s[2 + a..2 + a + |name|][0] == name[0];
    SkipSpacesAt(after, a);
  }

  lemma BracesFollow(s: string, a: nat, b: nat, name: string, text: string)
    requires s <= text && Form(s, a, b, name)
    ensures SkipSpaces(text[2 + a + |name|..]) == text[|s| - 2..]
  {
    var tail := text[2 + a + |name|..];
    forall i | 0 <= i < b ensures IsSpace(tail[i]) { assert tail[i] == s[2 + a + |name| + i]; }
    assert tail[b] == s[|s| - 2];
    SkipSpacesAt(tail, b);
  }

  lemma NameEnds(s: string, a: nat, b: nat, name: string, inner: string, text: string)
    requires s <= text && Form(s, a, b, name) && inner == text[2..][a..]
    ensures |name| < |inner| && !IsWord(inner[|name|]) && inner[..|name|] == name
    ensures forall i :: 0 <= i < |name| ==> IsWord(inner[i])
  {
  }

  // ---------------------------------------------------------------- literals and holes

  /** A placeholder as it stands in the text. */
  datatype Hole = Hole(name: string, source: string)

  /** The text between, before and after the holes. */
  datatype Cut = Cut(lits: seq<string>, holes: seq<Hole>)

  function Segments(text: string): (c: Cut)
    ensures |c.lits| == |c.holes| + 1
    decreases |text|
  {
    if text == "" then Cut([""], [])
    else
      match MatchPrefix(text)
      case Some(m) =>
        MatchSound(text);
        var rest := Segments(text[m.length..]);
        Cut([""] + rest.lits, [Hole(m.name, text[..m.length])] + rest.holes)
      case None =>
        var rest := Segments(text[1..]);
        Cut([[text[0]] + rest.lits[0]] + rest.lits[1..], rest.holes)
  }

  /** Literals and values in turn. */
  function Weave(lits: seq<string>, values: seq<string>): string
    requires |lits| == |values| + 1
    decreases |values|
  {
    if values == [] then lits[0] else lits[0] + values[0] + Weave(lits[1..], values[1..])
  }

  function Sources(holes: seq<Hole>): (r: seq<string>)
    ensures |r| == |holes|
  {
    seq(|holes|, i requires 0 <= i < |holes| => holes[i].source)
  }

  lemma WeaveFront(c: char, lits: seq<string>, values: seq<string>)
    requires |lits| == |values| + 1
    ensures Weave([[c] + lits[0]] + lits[1..], values) == [c] + Weave(lits, values)
  {
  }

  lemma WeaveHole(value: string, lits: seq<string>, values: seq<string>)
    requires |lits| == |values| + 1
    ensures Weave([""] + lits, [value] + values) == value + Weave(lits, values)
  {
  }

  /** The first literal is how the text starts. */
  lemma {:induction false} FirstLiteral(text: string)
    ensures Segments(text).lits[0] <= text
    decreases |text|
  {
    if text != "" && MatchPrefix(text).None? {
      FirstLiteral(text[1..]);
      assert text == [text[0]] + text[1..];
    }
  }

  /** No part of the text is a placeholder. */
  ghost predicate Free(s: string) {
    forall i, j, name | 0 <= i <= j <= |s| :: !IsPlaceholder(s[i..j], name)
  }

  ghost predicate AllFree(lits: seq<string>) {
    forall k :: 0 <= k < |lits| ==> Free(lits[k])
  }

  lemma ConsFree(text: string, c: char, rest: string)
    requires Free(rest) && [c] + rest <= text && MatchPrefix(text).None?
    ensures Free([c] + rest)
  {
    var s := [c] + rest;
    forall i, j, name | 0 <= i <= j <= |s| ensures !IsPlaceholder(s[i..j], name) {
      if i > 0 {
        assert s[i..j] == rest[i - 1..j - 1];
      } else {
        assert s[i..j] == text[..j];
        if IsPlaceholder(text[..j], name) {
          MatchComplete(text, j, name);
        }
      }
    }
  }

  lemma EmptyFree()
    ensures Free("")
  {
  }

  ghost predicate HolesOk(holes: seq<Hole>) {
    forall k :: 0 <= k < |holes| ==> IsPlaceholder(holes[k].source, holes[k].name)
  }

  /** The cut is exact: every hole is a placeholder, and no placeholder is left in the literals. */
  lemma {:induction false} SegmentsExact(text: string)
    ensures AllFree(Segments(text).lits) && HolesOk(Segments(text).holes)
    decreases |text|
  {
    EmptyFree();
    if text != "" {
      match MatchPrefix(text)
      case Some(m) =>
        MatchSound(text);
        SegmentsExact(text[m.length..]);
      case None =>
        SegmentsExact(text[1..]);
        FirstLiteral(text);
        ConsFree(text, text[0], Segments(text[1..]).lits[0]);
    }
  }

  // ---------------------------------------------------------------- substitution

  type Variables = map<string, string>

  /** `substitute`: each match is replaced by its encoded value, or kept if there is no such variable. */
  function Substitute(text: string, vars: Variables, encode: string -> string): string
    decreases |text|
  {
    if text == "" then ""
    else
      match MatchPrefix(text)
      case Some(m) =>
        MatchSound(text);
        (if m.name in vars then encode(vars[m.name]) else text[..m.length]) + Substitute(text[m.length..], vars, encode)
      case None => [text[0]] + Substitute(text[1..], vars, encode)
  }

  function Filled(holes: seq<Hole>, vars: Variables, encode: string -> string): (r: seq<string>)
    ensures |r| == |holes|
  {
    seq(|holes|, i requires 0 <= i < |holes| =>
      if holes[i].name in vars then encode(vars[holes[i].name]) else holes[i].source)
  }

  lemma FilledCons(hole: Hole, holes: seq<Hole>, vars: Variables, encode: string -> string)
    ensures Filled([hole] + holes, vars, encode)
         == [if hole.name in vars then encode(vars[hole.name]) else hole.source] + Filled(holes, vars, encode)
  {
  }

  /** Substitution keeps the literal text, in order, and fills the holes. */
  lemma {:induction false} SubstituteFills(text: string, vars: Variables, encode: string -> string)
    ensures Substitute(text, vars, encode) == Weave(Segments(text).lits, Filled(Segments(text).holes, vars, encode))
    decreases |text|
  {
    if text != "" {
      match MatchPrefix(text)
      case Some(m) =>
        MatchSound(text);
        SubstituteFills(text[m.length..], vars, encode);
        FillHole(text, m, vars, encode);
      case None =>
        var rest := Segments(text[1..]);
        SubstituteFills(text[1..], vars, encode);
        WeaveFront(text[0], rest.lits, Filled(rest.holes, vars, encode));
    }
  }

  lemma FillHole(text: string, m: Match, vars: Variables, encode: string -> string)
    requires text != "" && MatchPrefix(text) == Some(m) && m.length <= |text|
    ensures Weave(Segments(text).lits, Filled(Segments(text).holes, vars, encode))
         == (if m.name in vars then encode(vars[m.name]) else text[..m.length])
            + Weave(Segments(text[m.length..]).lits, Filled(Segments(text[m.length..]).holes, vars, encode))
  {
    var rest := Segments(text[m.length..]);
    FilledCons(Hole(m.name, text[..m.length]), rest.holes, vars, encode);
    WeaveHole(if m.name in vars then encode(vars[m.name]) else text[..m.length], rest.lits, Filled(rest.holes, vars, encode));
  }

  lemma {:induction false} SubstituteNothing(text: string, encode: string -> string)
    ensures Substitute(text, map[], encode) == text
    decreases |text|
  {
    if text != "" {
      match MatchPrefix(text)
      case Some(m) =>
        MatchSound(text);
        SubstituteNothing(text[m.length..], encode);
        assert text == text[..m.length] + text[m.length..];
      case None =>
        SubstituteNothing(text[1..], encode);
        assert text == [text[0]] + text[1..];
    }
  }

  /** Literals and holes together are the text. */
  lemma SegmentsWeave(text: string)
    ensures Weave(Segments(text).lits, Sources(Segments(text).holes)) == text
  {
    SubstituteFills(text, map[], x => x);
    SubstituteNothing(text, x => x);
    assert Filled(Segments(text).holes, map[], x => x) == Sources(Segments(text).holes);
  }

  // ---------------------------------------------------------------- the names in a text

  /** The names of all placeholders in the text. */
  function Names(text: string): set<string> {
    var holes := Segments(text).holes;
    set k | 0 <= k < |holes| :: holes[k].name
  }

  function Dedup(holes: seq<Hole>): (r: seq<string>)
    ensures forall x :: x in r <==> exists k :: 0 <= k < |holes| && holes[k].name == x
    ensures forall i, j :: 0 <= i < j < |r| ==> r[i] != r[j]
    decreases |holes|
  {
    if holes == [] then []
    else
      var before, last := Dedup(holes[..|holes| - 1]), holes[|holes| - 1].name;
      assert forall k :: 0 <= k < |holes| - 1 ==> holes[..|holes| - 1][k] == holes[k];
      if last in before then before else before + [last]
  }

  /** `placeholdersIn`: each name once, in order of first occurrence. */
  function PlaceholdersIn(text: string): (r: seq<string>)
    ensures forall x :: x in r <==> x in Names(text)
    ensures forall i, j :: 0 <= i < j < |r| ==> r[i] != r[j]
  {
    Dedup(Segments(text).holes)
  }
}
