/** HTML escaping: five replacements in a row, the single substitution they amount to, and its inverse. */
module Html {
  /** `value.replace(/c/g, entity)`. */
  function Replace(s: string, c: char, entity: string): string {
    if s == "" then "" else (if s[0] == c then entity else [s[0]]) + Replace(s[1..], c, entity)
  }

  function EscapeHtml(value: string): string {
    Replace(Replace(Replace(Replace(Replace(value, '&', "&amp;"), '<', "&lt;"), '>', "&gt;"), '"', "&quot;"), '\'', "&#39;")
  }

  function Entity(c: char): string {
    match c
    case '&' => "&amp;"
    case '<' => "&lt;"
    case '>' => "&gt;"
    case '"' => "&quot;"
    case '\'' => "&#39;"
    case _ => [c]
  }

  /** One substitution per character. */
  function EscapeEach(s: string): string {
    if s == "" then "" else Entity(s[0]) + EscapeEach(s[1..])
  }

  lemma {:induction false} ReplaceConcat(s: string, t: string, c: char, entity: string)
    ensures Replace(s + t, c, entity) == Replace(s, c, entity) + Replace(t, c, entity)
    decreases |s|
  {
    if s == "" {
      assert s + t == t;
    } else {
      ReplaceConcat(s[1..], t, c, entity);
      var first := if s[0] == c then entity else [s[0]];
      assert Replace(s + t, c, entity) == first + Replace(s[1..] + t, c, entity) by { assert (s + t)[1..] == s[1..] + t; }
      assert first + (Replace(s[1..], c, entity) + Replace(t, c, entity))
          == first + Replace(s[1..], c, entity) + Replace(t, c, entity);
    }
  }

  /** A text without the character is left alone. */
  lemma {:induction false} ReplaceNone(s: string, c: char, entity: string)
    requires c !in s
    ensures Replace(s, c, entity) == s
    decreases |s|
  {
    if s != "" {
      ReplaceNone(s[1..], c, entity);
      assert s == [s[0]] + s[1..];
    }
  }

  lemma ReplaceOne(c: char, d: char, entity: string)
    ensures Replace([c], d, entity) == if c == d then entity else [c]
  {
  }

  /** The k-th replacement. */
  function Step(k: nat, s: string): string
    requires 1 <= k <= 5
  {
    if k == 1 then Replace(s, '&', "&amp;")
    else if k == 2 then Replace(s, '<', "&lt;")
    else if k == 3 then Replace(s, '>', "&gt;")
    else if k == 4 then Replace(s, '"', "&quot;")
    else Replace(s, '\'', "&#39;")
  }

  /** The replacements from the k-th on. */
  function From(k: nat, s: string): string
    requires 1 <= k <= 6
    decreases 6 - k
  {
    if k == 6 then s else From(k + 1, Step(k, s))
  }

  /** The character that the k-th replacement looks for. */
  function Target(k: nat): char
    requires 1 <= k <= 5
  {
    if k == 1 then '&' else if k == 2 then '<' else if k == 3 then '>' else if k == 4 then '"' else '\''
  }

  predicate Clean(k: nat, s: string)
    requires 1 <= k <= 6
  {
    forall m :: k <= m <= 5 ==> Target(m) !in s
  }

  /** Later replacements leave a text alone that holds none of their characters. */
  lemma {:induction false} FromClean(k: nat, s: string)
    requires 1 <= k <= 6 && Clean(k, s)
    ensures From(k, s) == s
    decreases 6 - k
  {
    if k < 6 {
      assert Target(k) !in s;
      ReplaceNone(s, Target(k), if k == 1 then "&amp;" else if k == 2 then "&lt;" else if k == 3 then "&gt;"
                                else if k == 4 then "&quot;" else "&#39;");
      FromClean(k + 1, s);
    }
  }

  lemma EntityClean(k: nat)
    requires 1 <= k <= 5
    ensures Clean(k + 1, Entity(Target(k)))
  {
  }

  /** The replacements act on one character as `Entity` says: no later one touches an earlier one's
      result, because `&` comes first. */
  lemma {:induction false} FromOne(k: nat, c: char)
    requires 1 <= k <= 6 && forall m :: 1 <= m < k ==> Target(m) != c
    ensures From(k, [c]) == Entity(c)
    decreases 6 - k
  {
    if k == 6 {
      assert Target(1) != c && Target(2) != c && Target(3) != c && Target(4) != c && Target(5) != c;
    } else if c == Target(k) {
      ReplaceOne(c, Target(k), Entity(Target(k)));
      assert Step(k, [c]) == Entity(c);
      EntityClean(k);
      FromClean(k + 1, Entity(c));
    } else {
      ReplaceOne(c, Target(k), Entity(Target(k)));
      assert Step(k, [c]) == [c];
      FromOne(k + 1, c);
    }
  }

  lemma EscapeFrom(s: string)
    ensures EscapeHtml(s) == From(1, s)
  {
  }

  lemma EscapeOne(c: char)
    ensures EscapeHtml([c]) == Entity(c)
  {
    EscapeFrom([c]);
    FromOne(1, c);
  }

  lemma EscapeConcat(s: string, t: string)
    ensures EscapeHtml(s + t) == EscapeHtml(s) + EscapeHtml(t)
  {
    var s1, t1 := Replace(s, '&', "&amp;"), Replace(t, '&', "&amp;");
    ReplaceConcat(s, t, '&', "&amp;");
    var s2, t2 := Replace(s1, '<', "&lt;"), Replace(t1, '<', "&lt;");
    ReplaceConcat(s1, t1, '<', "&lt;");
    var s3, t3 := Replace(s2, '>', "&gt;"), Replace(t2, '>', "&gt;");
    ReplaceConcat(s2, t2, '>', "&gt;");
    var s4, t4 := Replace(s3, '"', "&quot;"), Replace(t3, '"', "&quot;");
    ReplaceConcat(s3, t3, '"', "&quot;");
    ReplaceConcat(s4, t4, '\'', "&#39;");
  }

  /** The five replacements in a row are one substitution per character. */
  lemma {:induction false} EscapeIsEach(s: string)
    ensures EscapeHtml(s) == EscapeEach(s)
  {
    if s != "" {
      assert s == [s[0]] + s[1..];
      EscapeConcat([s[0]], s[1..]);
      EscapeOne(s[0]);
      EscapeIsEach(s[1..]);
    }
  }

  // ---------------------------------------------------------------- no markup, nothing lost

  predicate IsMeta(c: char) {
    c == '<' || c == '>' || c == '"' || c == '\''
  }

  const ENTITIES: seq<string> := ["&amp;", "&lt;", "&gt;", "&quot;", "&#39;"]

  /** No metacharacter stands alone: none of `<>"'` occurs, and every `&` begins an entity. */
  predicate NoRawMeta(s: string) {
    && (forall i :: 0 <= i < |s| ==> !IsMeta(s[i]))
    && (forall i :: 0 <= i < |s| && s[i] == '&' ==> exists k :: 0 <= k < |ENTITIES| && ENTITIES[k] <= s[i..])
  }

  lemma EntitySafe(c: char, s: string)
    requires NoRawMeta(s)
    ensures NoRawMeta(Entity(c) + s)
  {
    var e := Entity(c);
    forall i | 0 <= i < |e + s| && (e + s)[i] == '&'
      ensures exists k :: 0 <= k < |ENTITIES| && ENTITIES[k] <= (e + s)[i..]
    {
      if i < |e| {
        EntityListed(c);
        assert i == 0 && (e + s)[0..] == e + s;
      } else {
        assert (e + s)[i..] == s[i - |e|..];
      }
    }
  }

  lemma EntityListed(c: char)
    ensures Entity(c)[0] == '&' ==> exists k :: 0 <= k < |ENTITIES| && ENTITIES[k] == Entity(c)
    ensures forall i :: 1 <= i < |Entity(c)| ==> Entity(c)[i] != '&'
    ensures forall i :: 0 <= i < |Entity(c)| ==> !IsMeta(Entity(c)[i])
  {
    assert ENTITIES[0] == "&amp;" && ENTITIES[1] == "&lt;" && ENTITIES[2] == "&gt;";
    assert ENTITIES[3] == "&quot;" && ENTITIES[4] == "&#39;";
  }

  /** Reads entities back. */
  function Unescape(s: string): string {
    if s == "" then ""
    else if "&amp;" <= s then "&" + Unescape(s[5..])
    else if "&lt;" <= s then "<" + Unescape(s[4..])
    else if "&gt;" <= s then ">" + Unescape(s[4..])
    else if "&quot;" <= s then "\"" + Unescape(s[6..])
    else if "&#39;" <= s then "'" + Unescape(s[5..])
    else [s[0]] + Unescape(s[1..])
  }

  lemma UnescapeEntity(c: char, s: string)
    ensures Unescape(Entity(c) + s) == [c] + Unescape(s)
  {
    var e := Entity(c) + s;
    assert e[|Entity(c)|..] == s;
    if c == '&' { assert "&amp;" <= e; }
    else if c == '<' { assert e[1] == 'l' && "&lt;" <= e; }
    else if c == '>' { assert e[1] == 'g' && "&gt;" <= e; }
    else if c == '"' { assert e[1] == 'q' && "&quot;" <= e; }
    else if c == '\'' { assert e[1] == '#' && "&#39;" <= e; }
    else { assert e[0] == c; }
  }

  lemma {:induction false} EachIsSafe(s: string)
    ensures NoRawMeta(EscapeEach(s))
  {
    if s != "" {
      EachIsSafe(s[1..]);
      EntityListed(s[0]);
      EntitySafe(s[0], EscapeEach(s[1..]));
    }
  }

  lemma {:induction false} EachUnescapes(s: string)
    ensures Unescape(EscapeEach(s)) == s
  {
    if s != "" {
      EachUnescapes(s[1..]);
      UnescapeEntity(s[0], EscapeEach(s[1..]));
    }
  }

  /** An escaped value holds no raw metacharacter and unescapes to the original. */
  lemma EscapeIsSafe(s: string)
    ensures NoRawMeta(EscapeHtml(s))
    ensures Unescape(EscapeHtml(s)) == s
  {
    EscapeIsEach(s);
    EachIsSafe(s);
    EachUnescapes(s);
  }
}
