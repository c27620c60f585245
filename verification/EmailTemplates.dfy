/**
 Editable transactional emails: validation of an edit, concurrent edits, and rendering.
 */
module EmailTemplates {
  import opened Options
  import opened Characters
  import opened Decimals
  import opened Html
  import opened TemplateText

  datatype Key = VerifyEmail | EmailVerified | ResetPassword | RegistrationCode

  const GLOBAL_VARIABLES: set<string> := {"app_name"}

  function TemplateVariables(key: Key): set<string> {
    match key
    case VerifyEmail => {"name", "link", "expires_hours"}
    case EmailVerified => {"name"}
    case ResetPassword => {"name", "link", "expires_minutes"}
    case RegistrationCode => {"code", "expires_minutes"}
  }

  function Required(key: Key): seq<string> {
    match key
    case VerifyEmail => ["link"]
    case EmailVerified => []
    case ResetPassword => ["link"]
    case RegistrationCode => ["code"]
  }

  function Allowed(key: Key): set<string> {
    TemplateVariables(key) + GLOBAL_VARIABLES
  }

  datatype Template = Template(subject: string, body: string)

  datatype Field = Subject | Body

  function Text(t: Template, field: Field): string {
    if field.Subject? then t.subject else t.body
  }

  // ---------------------------------------------------------------- validation

  datatype Problem = UnknownVariable(field: Field, name: string) | MissingRequired(name: string)

  predicate SubjectOk(key: Key, subject: string) {
    Names(subject) <= Allowed(key)
  }

  predicate BodyOk(key: Key, body: string) {
    Names(body) <= Allowed(key) && forall k :: 0 <= k < |Required(key)| ==> Required(key)[k] in Names(body)
  }

  /** No unknown variable anywhere, and every required one in the body. */
  predicate ValidTemplate(key: Key, t: Template) {
    SubjectOk(key, t.subject) && BodyOk(key, t.body)
  }

  predicate IsProblem(key: Key, t: Template, p: Problem) {
    match p
    case UnknownVariable(field, name) => name in Names(Text(t, field)) && name !in Allowed(key)
    case MissingRequired(name) => name in Required(key) && name !in Names(t.body)
  }

  /** The unknown variables of one field, appended to what was found before. */
  method UnknownIn(key: Key, t: Template, field: Field, before: seq<Problem>) returns (problems: seq<Problem>)
    ensures before <= problems
    ensures forall p :: p in problems[|before|..] ==> p.UnknownVariable? && p.field == field && IsProblem(key, t, p)
    ensures forall name :: name in Names(Text(t, field)) && name !in Allowed(key) ==> UnknownVariable(field, name) in problems
  {
    problems := before;
    var names := PlaceholdersIn(Text(t, field));
    for k := 0 to |names|
      invariant before <= problems
      invariant forall p :: p in problems[|before|..] ==> p.UnknownVariable? && p.field == field && IsProblem(key, t, p)
      invariant forall i :: 0 <= i < k && names[i] !in Allowed(key) ==> UnknownVariable(field, names[i]) in problems
    {
      if names[k] !in Allowed(key) {
        assert names[k] in names;
        problems := problems + [UnknownVariable(field, names[k])];
      }
    }
  }

  /** `templateProblems`: exactly the problems there are, so none for exactly the valid templates. */
  method TemplateProblems(key: Key, t: Template) returns (problems: seq<Problem>)
    ensures forall p :: p in problems <==> IsProblem(key, t, p)
    ensures problems == [] <==> ValidTemplate(key, t)
  {
    problems := UnknownIn(key, t, Subject, []);
    problems := UnknownIn(key, t, Body, problems);
    ghost var unknown := problems;
    UnknownComplete(key, t, unknown);
    var required := Required(key);
    for k := 0 to |required|
      invariant forall p :: p in problems <==>
                  (p.UnknownVariable? && IsProblem(key, t, p))
                  || (p.MissingRequired? && p.name in required[..k] && p.name !in Names(t.body))
    {
      assert required[..k + 1] == required[..k] + [required[k]];
      if required[k] !in Names(t.body) {
        problems := problems + [MissingRequired(required[k])];
      }
    }
    assert required[..|required|] == required;
    NoProblems(key, t, problems);
  }

  lemma UnknownComplete(key: Key, t: Template, unknown: seq<Problem>)
    requires forall p :: p in unknown ==> p.UnknownVariable? && IsProblem(key, t, p)
    requires forall field: Field, name :: name in Names(Text(t, field)) && name !in Allowed(key) ==>
               UnknownVariable(field, name) in unknown
    ensures forall p :: p in unknown <==> p.UnknownVariable? && IsProblem(key, t, p)
  {
  }

  lemma NoProblems(key: Key, t: Template, problems: seq<Problem>)
    requires forall p :: p in problems <==> IsProblem(key, t, p)
    ensures problems == [] <==> ValidTemplate(key, t)
  {
    if problems == [] {
      forall name | name in Names(t.subject) ensures name in Allowed(key) {
        assert !IsProblem(key, t, UnknownVariable(Subject, name));
      }
      forall name | name in Names(t.body) ensures name in Allowed(key) {
        assert !IsProblem(key, t, UnknownVariable(Body, name));
      }
      forall k | 0 <= k < |Required(key)| ensures Required(key)[k] in Names(t.body) {
        assert !IsProblem(key, t, MissingRequired(Required(key)[k]));
      }
    } else {
      assert problems[0] in problems && IsProblem(key, t, problems[0]);
    }
  }

  // ---------------------------------------------------------------- concurrent edits

  datatype Row = Row(title: string, text: Template, isActive: bool)

  /** An edit names the fields it changes. */
  datatype Edit = Edit(title: Option<string>, subject: Option<string>, body: Option<string>, isActive: Option<bool>)

  datatype Editor = Editor(key: Key, edit: Edit)

  /** The stored rows, and the edits that passed validation and are about to be written. */
  datatype State = State(rows: map<Key, Row>, editors: map<nat, Editor>)

  datatype Event = Seed(key: Key, row: Row) | Validate(pid: nat, key: Key, edit: Edit) | Write(pid: nat) | GiveUp(pid: nat)

  function Or<T>(x: Option<T>, y: T): T {
    if x.Some? then x.value else y
  }

  function Merged(t: Template, e: Edit): Template {
    Template(Or(e.subject, t.subject), Or(e.body, t.body))
  }

  function Applied(r: Row, e: Edit): Row {
    Row(Or(e.title, r.title), Merged(r.text, e), Or(e.isActive, r.isActive))
  }

  function DropEditor(s: State, pid: nat): State {
    s.(editors := map p | p in s.editors && p != pid :: s.editors[p])
  }

  /** Validation looks at the row as it is now, the write changes the row as it is then. */
  function Next(s: State, e: Event): State {
    match e
    case Seed(key, row) =>
      if key !in s.rows && ValidTemplate(key, row.text) then s.(rows := s.rows[key := row]) else s
    case Validate(pid, key, edit) =>
      if pid !in s.editors && key in s.rows && ValidTemplate(key, Merged(s.rows[key].text, edit))
      then s.(editors := s.editors[pid := Editor(key, edit)]) else s
    case Write(pid) =>
      if pid in s.editors && s.editors[pid].key in s.rows then
        DropEditor(s, pid).(
          rows := s.rows[s.editors[pid].key := Applied(s.rows[s.editors[pid].key], s.editors[pid].edit)])
      else s
    case GiveUp(pid) => DropEditor(s, pid)
  }

  function Run(s: State, es: seq<Event>): State
    decreases |es|
  {
    if es == [] then s else Run(Next(s, es[0]), es[1..])
  }

  predicate EditorOk(e: Editor) {
    && (e.edit.subject.Some? ==> SubjectOk(e.key, e.edit.subject.value))
    && (e.edit.body.Some? ==> BodyOk(e.key, e.edit.body.value))
  }

  /** Every stored template is valid, and every pending edit is valid field by field. */
  ghost predicate Inv(s: State) {
    && (forall k :: k in s.rows ==> ValidTemplate(k, s.rows[k].text))
    && (forall p :: p in s.editors ==> EditorOk(s.editors[p]))
  }

  lemma NextInv(s: State, e: Event)
    requires Inv(s)
    ensures Inv(Next(s, e))
  {
  }

  lemma {:induction false} RunInv(s: State, es: seq<Event>)
    requires Inv(s)
    ensures Inv(Run(s, es))
    decreases |es|
  {
    if es != [] {
      NextInv(s, es[0]);
      RunInv(Next(s, es[0]), es[1..]);
    }
  }

  /** From valid seeds, no interleaving of edits stores a template with problems, although an edit may
      be written to a row that changed since its validation. */
  lemma StoredTemplatesValid(es: seq<Event>, key: Key)
    ensures var s := Run(State(map[], map[]), es); key in s.rows ==> ValidTemplate(key, s.rows[key].text)
  {
    RunInv(State(map[], map[]), es);
  }

  // ---------------------------------------------------------------- rendering

  predicate IsLineBreak(c: char) {
    c == '\n' || c == '\r'
  }

  /** The length of the run of spaces a text starts with. */
  function SpaceRun(s: string): (n: nat)
    ensures n <= |s| && (forall i :: 0 <= i < n ==> IsSpace(s[i])) && (n < |s| ==> !IsSpace(s[n]))
  {
    if s != "" && IsSpace(s[0]) then
      var m := SpaceRun(s[1..]);
      assert forall i :: 1 <= i < m + 1 ==> s[i] == s[1..][i - 1];
      m + 1
    else 0
  }

  predicate HasBreak(s: string) {
    exists i :: 0 <= i < |s| && IsLineBreak(s[i])
  }

  /** Each maximal run of spaces with a line break in it becomes one space. */
  function CollapseLines(s: string): string
    decreases |s|
  {
    if s == "" then ""
    else
      var n := SpaceRun(s);
      if n == 0 then [s[0]] + CollapseLines(s[1..])
      else (if HasBreak(s[..n]) then " " else s[..n]) + CollapseLines(s[n..])
  }

  lemma {:induction false} CollapsedHasNoBreak(s: string)
    ensures !HasBreak(CollapseLines(s))
    decreases |s|
  {
    if s != "" {
      var n := SpaceRun(s);
      if n == 0 {
        CollapsedHasNoBreak(s[1..]);
        var rest := CollapseLines(s[1..]);
        forall i | 0 <= i < |[s[0]] + rest| ensures !IsLineBreak(([s[0]] + rest)[i]) {
          if i > 0 { assert ([s[0]] + rest)[i] == rest[i - 1]; }
        }
      } else {
        CollapsedHasNoBreak(s[n..]);
        var first := if HasBreak(s[..n]) then " " else s[..n];
        var rest := CollapseLines(s[n..]);
        forall i | 0 <= i < |first + rest| ensures !IsLineBreak((first + rest)[i]) {
          if i >= |first| { assert (first + rest)[i] == rest[i - |first|]; }
        }
      }
    }
  }

  /** The characters that are not spaces, in order. */
  function Visible(s: string): string {
    if s == "" then "" else (if IsSpace(s[0]) then "" else [s[0]]) + Visible(s[1..])
  }

  lemma {:induction false} SpacesInvisible(s: string, t: string)
    requires forall i :: 0 <= i < |s| ==> IsSpace(s[i])
    ensures Visible(s + t) == Visible(t)
    decreases |s|
  {
    if s == "" {
      assert s + t == t;
    } else {
      assert (s + t)[1..] == s[1..] + t;
      SpacesInvisible(s[1..], t);
    }
  }

  /** Collapsing lines changes nothing but spaces. */
  lemma {:induction false} CollapseKeepsVisible(s: string)
    ensures Visible(CollapseLines(s)) == Visible(s)
    decreases |s|
  {
    if s != "" {
      var n := SpaceRun(s);
      if n == 0 {
        CollapseKeepsVisible(s[1..]);
        assert ([s[0]] + CollapseLines(s[1..]))[1..] == CollapseLines(s[1..]);
      } else {
        CollapseKeepsVisible(s[n..]);
        SpacesInvisible(s[..n], s[n..]);
        assert s == s[..n] + s[n..];
        SpacesInvisible(if HasBreak(s[..n]) then " " else s[..n], CollapseLines(s[n..]));
      }
    }
  }

  lemma {:induction false} TrimKeepsUnbroken(s: string)
    requires !HasBreak(s)
    ensures !HasBreak(TrimLeft(s)) && !HasBreak(TrimRight(s))
    decreases |s|
  {
    if s != "" {
      Unbroken(s, 1, |s|);
      Unbroken(s, 0, |s| - 1);
      TrimKeepsUnbroken(s[1..]);
      TrimKeepsUnbroken(s[..|s| - 1]);
    }
  }

  lemma Unbroken(s: string, i: nat, j: nat)
    requires !HasBreak(s) && i <= j <= |s|
    ensures !HasBreak(s[i..j])
  {
  }

  /** A character that is no space stays. */
  lemma CollapseFirst(s: string)
    requires s != "" && !IsSpace(s[0])
    ensures CollapseLines(s) == [s[0]] + CollapseLines(s[1..])
  {
  }

  lemma CollapseSpaces(spaces: string, rest: string)
    requires spaces != "" && forall i :: 0 <= i < |spaces| ==> IsSpace(spaces[i])
    requires rest != "" ==> !IsSpace(rest[0])
    ensures CollapseLines(spaces + rest) == (if HasBreak(spaces) then " " else spaces) + CollapseLines(rest)
  {
    RunLength(spaces, rest);
  }

  lemma Glue(word: string, rest: string)
    requires word != ""
    ensures [word[0]] + (word[1..] + rest) == word + rest && (word + rest)[1..] == word[1..] + rest
  {
  }

  lemma {:induction false} WordKept(word: string, rest: string)
    requires forall i :: 0 <= i < |word| ==> !IsSpace(word[i])
    ensures CollapseLines(word + rest) == word + CollapseLines(rest)
    decreases |word|
  {
    if word == "" {
      assert word + rest == rest;
    } else {
      Glue(word, rest);
      Glue(word, CollapseLines(rest));
      WordKept(word[1..], rest);
      CollapseFirst(word + rest);
    }
  }

  /** A word and the spaces that follow it: the word stays, the spaces become one space if they hold a break. */
  lemma CollapseRun(word: string, spaces: string, rest: string)
    requires forall i :: 0 <= i < |word| ==> !IsSpace(word[i])
    requires spaces != "" && forall i :: 0 <= i < |spaces| ==> IsSpace(spaces[i])
    requires rest != "" ==> !IsSpace(rest[0])
    ensures CollapseLines(word + (spaces + rest))
         == word + ((if HasBreak(spaces) then " " else spaces) + CollapseLines(rest))
  {
    WordKept(word, spaces + rest);
    CollapseSpaces(spaces, rest);
  }

  lemma {:induction false} RunLength(spaces: string, rest: string)
    requires forall i :: 0 <= i < |spaces| ==> IsSpace(spaces[i])
    requires rest != "" ==> !IsSpace(rest[0])
    ensures SpaceRun(spaces + rest) == |spaces|
    ensures (spaces + rest)[..|spaces|] == spaces && (spaces + rest)[|spaces|..] == rest
    decreases |spaces|
  {
    if spaces == "" {
      assert spaces + rest == rest;
    } else {
      assert (spaces + rest)[1..] == spaces[1..] + rest;
      RunLength(spaces[1..], rest);
    }
  }

  /** What an unbroken text begins with: a character, or all the spaces up to the next one. */
  function FirstPart(s: string): (n: nat)
    requires s != ""
    ensures 0 < n <= |s|
  {
    if SpaceRun(s) == 0 then 1 else SpaceRun(s)
  }

  lemma FirstPartKept(s: string)
    requires s != "" && !HasBreak(s[..FirstPart(s)]) && CollapseLines(s[FirstPart(s)..]) == s[FirstPart(s)..]
    ensures CollapseLines(s) == s
  {
    var a, b := s[..FirstPart(s)], s[FirstPart(s)..];
    assert s == a + b;
    if SpaceRun(s) == 0 {
      CollapseFirst(s);
    } else {
      SpacesKept(a, b);
    }
  }

  lemma SpacesKept(spaces: string, rest: string)
    requires spaces != "" && !HasBreak(spaces) && forall i :: 0 <= i < |spaces| ==> IsSpace(spaces[i])
    requires rest != "" ==> !IsSpace(rest[0])
    ensures CollapseLines(spaces + rest) == spaces + CollapseLines(rest)
  {
    CollapseSpaces(spaces, rest);
  }

  lemma UnbrokenParts(s: string, n: nat)
    requires !HasBreak(s) && n <= |s|
    ensures !HasBreak(s[..n]) && !HasBreak(s[n..])
  {
  }

  lemma {:induction false} NothingToCollapse(s: string)
    requires !HasBreak(s)
    ensures CollapseLines(s) == s
    decreases |s|
  {
    if s != "" {
      UnbrokenParts(s, FirstPart(s));
      NothingToCollapse(s[FirstPart(s)..]);
      FirstPartKept(s);
    }
  }

  predicate NoOuterSpace(s: string) {
    s != "" ==> !IsSpace(s[0]) && !IsSpace(s[|s| - 1])
  }

  lemma {:induction false} TrimmedLeft(s: string)
    ensures var t := TrimLeft(s); (t != "" ==> !IsSpace(t[0])) && Visible(t) == Visible(s)
    ensures s != "" && !IsSpace(s[0]) ==> TrimLeft(s) == s
    decreases |s|
  {
    if s != "" && IsSpace(s[0]) { TrimmedLeft(s[1..]); }
  }

  lemma {:induction false} VisibleSnoc(s: string, c: char)
    ensures Visible(s + [c]) == Visible(s) + Visible([c])
    decreases |s|
  {
    if s == "" {
      assert s + [c] == [c];
    } else {
      assert (s + [c])[1..] == s[1..] + [c];
      VisibleSnoc(s[1..], c);
    }
  }

  lemma {:induction false} TrimmedRight(s: string)
    ensures var t := TrimRight(s);
            |t| <= |s| && (t != "" ==> !IsSpace(t[|t| - 1]) && t[0] == s[0]) && Visible(t) == Visible(s)
    ensures s != "" && !IsSpace(s[|s| - 1]) ==> TrimRight(s) == s
    decreases |s|
  {
    if s != "" && IsSpace(s[|s| - 1]) {
      TrimmedRight(s[..|s| - 1]);
      VisibleSnoc(s[..|s| - 1], s[|s| - 1]);
      SpacesInvisible([s[|s| - 1]], "");
      assert s == s[..|s| - 1] + [s[|s| - 1]];
    }
  }

  lemma Trimmed(s: string)
    ensures NoOuterSpace(Trim(s)) && Visible(Trim(s)) == Visible(s)
    ensures NoOuterSpace(s) ==> Trim(s) == s
  {
    TrimmedLeft(s);
    TrimmedRight(TrimLeft(s));
  }

  datatype Rendered = Rendered(subject: string, content: string)

  /** `renderTemplate` without the shared layout: plain values in the one-line subject, escaped values in
      the body. */
  function RenderTemplate(t: Template, vars: Variables): Rendered {
    Rendered(Trim(CollapseLines(Substitute(t.subject, vars, v => v))),
             Substitute(t.body, vars, EscapeHtml))
  }

  lemma SubjectIsOneLine(t: Template, vars: Variables)
    ensures !HasBreak(RenderTemplate(t, vars).subject)
  {
    var s := CollapseLines(Substitute(t.subject, vars, v => v));
    CollapsedHasNoBreak(Substitute(t.subject, vars, v => v));
    TrimKeepsUnbroken(s);
    TrimKeepsUnbroken(TrimLeft(s));
  }

  /** The values, as they are, in the places of the holes. */
  predicate ArePlain(holes: seq<Hole>, vars: Variables, values: seq<string>) {
    |values| == |holes| && forall k :: 0 <= k < |holes| ==> holes[k].name in vars && values[k] == vars[holes[k].name]
  }

  /** A subject is its literal text with the plain value in the place of each placeholder, apart from spaces: it is
      one line without outer spaces, and exactly that text if the text is so already. */
  ghost predicate SubjectFilled(t: Template, vars: Variables, subject: string) {
    var c := Segments(t.subject);
    && AllFree(c.lits) && Weave(c.lits, Sources(c.holes)) == t.subject
    && !HasBreak(subject) && NoOuterSpace(subject)
    && exists values :: ArePlain(c.holes, vars, values)
                        && Visible(subject) == Visible(Weave(c.lits, values))
                        && (!HasBreak(Weave(c.lits, values)) && NoOuterSpace(Weave(c.lits, values)) ==>
                              subject == Weave(c.lits, values))
                        && subject == Trim(CollapseLines(Weave(c.lits, values)))
  }

  lemma ValidSubjectFills(key: Key, t: Template, vars: Variables)
    requires SubjectOk(key, t.subject) && Allowed(key) <= vars.Keys
    ensures SubjectFilled(t, vars, RenderTemplate(t, vars).subject)
  {
    var c := Segments(t.subject);
    var values := Filled(c.holes, vars, v => v);
    SegmentsExact(t.subject);
    SegmentsWeave(t.subject);
    SubstituteFills(t.subject, vars, v => v);
    forall k | 0 <= k < |c.holes| ensures c.holes[k].name in vars {
      assert c.holes[k].name in Names(t.subject);
    }
    assert ArePlain(c.holes, vars, values);
    var w := Weave(c.lits, values);
    assert RenderTemplate(t, vars).subject == Trim(CollapseLines(w));
    SubjectText(t, vars, w);
  }

  /** What collapsing and trimming leave of a text. */
  lemma SubjectText(t: Template, vars: Variables, w: string)
    requires RenderTemplate(t, vars).subject == Trim(CollapseLines(w))
    ensures var subject := RenderTemplate(t, vars).subject;
            && !HasBreak(subject) && NoOuterSpace(subject) && Visible(subject) == Visible(w)
            && (!HasBreak(w) && NoOuterSpace(w) ==> subject == w)
  {
    SubjectIsOneLine(t, vars);
    Trimmed(CollapseLines(w));
    CollapseKeepsVisible(w);
    if !HasBreak(w) { NothingToCollapse(w); }
    Trimmed(w);
  }

  /** A body is its literal text, in order and without placeholders, with a safely escaped value in the
      place of each placeholder. */
  ghost predicate ProperlyFilled(t: Template, vars: Variables, content: string) {
    var c := Segments(t.body);
    && AllFree(c.lits) && Weave(c.lits, Sources(c.holes)) == t.body
    && (forall k :: 0 <= k < |c.holes| ==> c.holes[k].name in vars)
    && exists values :: |values| == |c.holes| && content == Weave(c.lits, values) && SafeValues(c.holes, vars, values)
  }

  ghost predicate SafeValues(holes: seq<Hole>, vars: Variables, values: seq<string>)
    requires |values| == |holes|
  {
    forall k :: 0 <= k < |holes| && holes[k].name in vars ==>
      NoRawMeta(values[k]) && Unescape(values[k]) == vars[holes[k].name]
  }

  lemma ValidBodyFills(key: Key, t: Template, vars: Variables)
    requires ValidTemplate(key, t) && Allowed(key) <= vars.Keys
    ensures ProperlyFilled(t, vars, RenderTemplate(t, vars).content)
  {
    var c := Segments(t.body);
    SegmentsExact(t.body);
    SegmentsWeave(t.body);
    SubstituteFills(t.body, vars, EscapeHtml);
    forall k | 0 <= k < |c.holes| ensures c.holes[k].name in vars {
      assert c.holes[k].name in Names(t.body);
    }
    var values := Filled(c.holes, vars, EscapeHtml);
    forall k | 0 <= k < |c.holes| ensures NoRawMeta(values[k]) && Unescape(values[k]) == vars[c.holes[k].name] {
      EscapeIsSafe(vars[c.holes[k].name]);
    }
    assert SafeValues(c.holes, vars, values);
  }

  // ---------------------------------------------------------------- the mails that are sent

  /** The mails of the email service, with the values their senders give. */
  datatype Mail =
    | VerificationMail(name: string, link: string, hours: nat)
    | ResetMail(name: string, link: string, minutes: nat)
    | VerifiedMail(name: string)
    | CodeMail(code: string, minutes: nat)

  function KeyOf(m: Mail): Key {
    match m
    case VerificationMail(_, _, _) => VerifyEmail
    case ResetMail(_, _, _) => ResetPassword
    case VerifiedMail(_) => EmailVerified
    case CodeMail(_, _) => RegistrationCode
  }

  function SenderVariables(m: Mail): Variables {
    match m
    case VerificationMail(name, link, hours) => map["name" := name, "link" := link, "expires_hours" := Decimal(hours)]
    case ResetMail(name, link, minutes) => map["name" := name, "link" := link, "expires_minutes" := Decimal(minutes)]
    case VerifiedMail(name) => map["name" := name]
    case CodeMail(code, minutes) => map["code" := code, "expires_minutes" := Decimal(minutes)]
  }

  /** Every sender provides every variable its template may use, with the value that belongs there. */
  lemma SendersCoverTheirTemplates(m: Mail, appName: string)
    ensures var vars := map["app_name" := appName] + SenderVariables(m);
            && Allowed(KeyOf(m)) <= vars.Keys && vars["app_name"] == appName
            && (!m.CodeMail? ==> vars["name"] == m.name)
            && (m.VerificationMail? ==> vars["link"] == m.link && vars["expires_hours"] == Decimal(m.hours))
            && (m.ResetMail? ==> vars["link"] == m.link && vars["expires_minutes"] == Decimal(m.minutes))
            && (m.CodeMail? ==> vars["code"] == m.code && vars["expires_minutes"] == Decimal(m.minutes))
  {
  }

  // ---------------------------------------------------------------- the service

  datatype UpdateResult = Updated(row: Row) | NotFound | Rejected(problems: seq<Problem>)

  ghost predicate Untouched(es: seq<Event>, pid: nat) {
    forall e :: e in es ==> !e.Seed? ==> e.pid != pid
  }

  lemma EditorStays(s: State, e: Event, pid: nat)
    requires pid in s.editors && s.editors[pid].key in s.rows && (!e.Seed? ==> e.pid != pid)
    ensures pid in Next(s, e).editors && Next(s, e).editors[pid] == s.editors[pid]
    ensures s.editors[pid].key in Next(s, e).rows
  {
  }

  lemma {:induction false} EditorWaits(s: State, es: seq<Event>, pid: nat)
    requires Inv(s) && Untouched(es, pid) && pid in s.editors && s.editors[pid].key in s.rows
    ensures Inv(Run(s, es)) && pid in Run(s, es).editors && Run(s, es).editors[pid] == s.editors[pid]
    ensures s.editors[pid].key in Run(s, es).rows
    decreases |es|
  {
    if es != [] {
      assert es[0] in es;
      EditorStays(s, es[0], pid);
      NextInv(s, es[0]);
      EditorWaits(Next(s, es[0]), es[1..], pid);
    }
  }

  /** The row after the edit: the fields that the edit names have its values, the others stay. */
  predicate IsEdited(was: Row, edit: Edit, row: Row) {
    && row.title == (if edit.title.Some? then edit.title.value else was.title)
    && row.text.subject == (if edit.subject.Some? then edit.subject.value else was.text.subject)
    && row.text.body == (if edit.body.Some? then edit.body.value else was.text.body)
    && (row.isActive <==> if edit.isActive.Some? then edit.isActive.value else was.isActive)
  }

  /** The text that is validated is that of the edited row. */
  lemma MergedIsEdited(was: Row, edit: Edit, row: Row)
    requires IsEdited(was, edit, row)
    ensures row == Applied(was, edit) && row.text == Merged(was.text, edit)
  {
  }

  class TemplateService {
    const catalog: map<Key, Template>
    var s: State

    /** The built-in texts are complete and valid. */
    ghost predicate Valid()
      reads this
    {
      && Inv(s)
      && forall key :: key in catalog && ValidTemplate(key, catalog[key])
    }

    constructor (catalog: map<Key, Template>)
      requires forall key :: key in catalog && ValidTemplate(key, catalog[key])
      ensures Valid() && this.catalog == catalog && s == State(map[], map[])
    {
      this.catalog := catalog;
      s := State(map[], map[]);
    }

    /** `update`; `others` is what other edits do between the validation and the write. */
    method Update(pid: nat, key: Key, edit: Edit, others: seq<Event>) returns (r: UpdateResult)
      requires Valid() && pid !in s.editors && Untouched(others, pid)
      modifies this`s
      ensures Valid()
      ensures r.NotFound? <==> key !in old(s).rows
      ensures r.Rejected? <==> key in old(s).rows && !ValidTemplate(key, Merged(old(s).rows[key].text, edit))
      ensures r.Rejected? ==> forall p :: p in r.problems <==> IsProblem(key, Merged(old(s).rows[key].text, edit), p)
      ensures !r.Updated? ==> s == old(s)
      ensures r.Updated? ==>
                var b := Run(Next(old(s), Validate(pid, key, edit)), others);
                && key in b.rows && s == Next(b, Write(pid))
                && s.rows == b.rows[key := r.row] && IsEdited(b.rows[key], edit, r.row)
    {
      if key !in s.rows {
        return NotFound;
      }
      var problems := TemplateProblems(key, Merged(s.rows[key].text, edit));
      if |problems| > 0 {
        return Rejected(problems);
      }
      NextInv(s, Validate(pid, key, edit));
      s := Next(s, Validate(pid, key, edit));
      EditorWaits(s, others, pid);
      s := Run(s, others);
      NextInv(s, Write(pid));
      s := Next(s, Write(pid));
      return Updated(s.rows[key]);
    }

    /** The text a mail is made of: the stored one if it is there and active, else the built-in one. */
    ghost function Source(key: Key): Template
      requires Valid()
      reads this
    {
      if key in s.rows && s.rows[key].isActive then s.rows[key].text else catalog[key]
    }

    /** `render` for one of the mails: the body is the template's literal text with safely escaped values
        in the place of all placeholders, and the subject is its literal text with the plain values, on one line. */
    method Render(m: Mail, appName: string) returns (r: Rendered)
      requires Valid()
      ensures var vars := map["app_name" := appName] + SenderVariables(m);
              ProperlyFilled(Source(KeyOf(m)), vars, r.content) && SubjectFilled(Source(KeyOf(m)), vars, r.subject)
    {
      var key := KeyOf(m);
      var source := if key in s.rows && s.rows[key].isActive then s.rows[key].text else catalog[key];
      var vars := map["app_name" := appName] + SenderVariables(m);
      SendersCoverTheirTemplates(m, appName);
      ValidBodyFills(key, source, vars);
      ValidSubjectFills(key, source, vars);
      r := RenderTemplate(source, vars);
    }
  }
}
